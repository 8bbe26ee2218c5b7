/** The host's key/value option store, which the settings page reads with
    get_option and writes with update_option. */
module Options {
  import opened PhpValues

  /** WordPress's get_option(name, default) over the store's contents: the
      stored value, or the default when the name is not stored. */
  function StoredOr(options: map<string, Value>, name: string, default: Value): Value {
    if name in options then options[name] else default
  }

  class OptionStore {
    var options: map<string, Value>

    constructor (initial: map<string, Value>)
      ensures options == initial
    {
      options := initial;
    }

    function Get(name: string, default: Value): Value
      reads this
    {
      StoredOr(options, name, default)
    }

    /** update_option(name, value): the name now holds the value and no other
        name changes. */
    method Update(name: string, value: Value)
      modifies this
      ensures options == old(options)[name := value]
    {
      options := options[name := value];
    }
  }
}
