/** The rendering strategies a code bank is generated with. */
module Codebank {
  /**
   * `Default` keeps every unit's full source, `NoTests` drops test code,
   * and `Summary` keeps only the public interface with bodies elided.
   */
  datatype BankStrategy = Default | NoTests | Summary
}
