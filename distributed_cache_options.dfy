/** `DistributedCacheOptionsBase`: the key-building settings shared by the
    distributed backends. */
module DistributedCacheOptions {
  import opened Wrappers
  import opened Text

  /** `Version` (null: no version segment), `EnvironmentPrefix` (null or blank: no
      prefix), `EnableKeyEncoding` and `EnableKeyLengthValidation`. */
  datatype DistributedCacheOptionsBase = DistributedCacheOptionsBase(
    Version: Option<Int32>,
    EnvironmentPrefix: Option<string>,
    EnableKeyEncoding: bool,
    EnableKeyLengthValidation: bool)

  /** A freshly constructed options object: the property initialisers. */
  function Defaults(): (d: DistributedCacheOptionsBase)
    ensures d.Version.None? && d.EnvironmentPrefix.None?
    ensures d.EnableKeyEncoding && d.EnableKeyLengthValidation
  {
    DistributedCacheOptionsBase(None, None, true, true)
  }
}
