/** Gate definitions: the two enumerations and the immutable gate record. */
module GateModels {
  import opened Wrappers

  /** Whether a gate works for every product or varies by product. */
  datatype GateType = Universal | ConfigRestricted {
    /** The enumeration's string value. */
    function Text(): string {
      match this
      case Universal => "universal"
      case ConfigRestricted => "config"
    }
  }

  /** Whether a gate has a prompt and is ready to use. */
  datatype GateStatus = Active | Placeholder {
    /** The enumeration's string value. */
    function Text(): string {
      match this
      case Active => "active"
      case Placeholder => "placeholder"
    }
  }

  /**
   * A gate definition. A datatype value cannot be changed after it is built,
   * which is what the frozen record promises.
   */
  datatype GateConfig = GateConfig(
    number: int,
    name: string,
    gateType: GateType,
    promptId: Option<string>,
    promptVersion: Option<string>,
    variablesTemplate: map<string, string>,
    toolsRequired: seq<string>,
    status: GateStatus)

  /** The record's constructor with its declared defaults. */
  function NewGate(
    number: int,
    name: string,
    gateType: GateType,
    promptId: Option<string> := None,
    promptVersion: Option<string> := None,
    variablesTemplate: map<string, string> := map[],
    toolsRequired: seq<string> := [],
    status: GateStatus := Placeholder): GateConfig
  {
    GateConfig(number, name, gateType, promptId, promptVersion, variablesTemplate, toolsRequired, status)
  }

  /** A gate built from number, name and type alone has no prompt, no variables, no tools and is a placeholder. */
  lemma NewGateDefaults(number: int, name: string, gateType: GateType)
    ensures var g := NewGate(number, name, gateType);
      && g.number == number && g.name == name && g.gateType == gateType
      && g.promptId == None && g.promptVersion == None
      && g.variablesTemplate == map[] && g.toolsRequired == []
      && g.status == Placeholder
  {
  }

  /** Each enumeration has exactly its two members, with distinct string values. */
  lemma EnumerationValues(t: GateType, s: GateStatus)
    ensures t == Universal || t == ConfigRestricted
    ensures s == Active || s == Placeholder
    ensures Universal.Text() != ConfigRestricted.Text()
    ensures Active.Text() != Placeholder.Text()
  {
  }
}
