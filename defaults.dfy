/** The defaults a suite hands to its tests and child suites.  `TestDefaults`
    keeps the suite's setting table and its parent's defaults; how it resolves
    the values of one test (`get_test_values`) is not part of this model and is
    passed to the builder as a function. */
module TestDefaults {
  import opened Wrappers
  import opened Parsing

  /** `TestDefaults(setting_table, parent_defaults)`. */
  datatype Defaults = Defaults(settings: SettingTable, parent: Option<Defaults>)

  datatype Timeout = Timeout(value: string, message: string)

  /** What `get_test_values` resolves for one test; `None` or `Unset` for a setting that is not set. */
  datatype TestValues = TestValues(
    tags: seq<string>, template: Option<string>, timeout: Option<Timeout>,
    setup: RawStep, teardown: RawStep)
}
