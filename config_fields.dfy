/** The edit handlers of a configuration field
    (apps/web-v2/src/components/config-fields/index.tsx). The field's value
    belongs to the parent (written through `setValue`); the component keeps a
    `jsonError` cell. JSON.parse, JSON.stringify and Number are parameters:
    `parse` gives None where JSON.parse throws, `toNumber` gives None where
    Number yields NaN, `stringify` gives None where JSON.stringify yields
    undefined. */
module ConfigFields {
  import opened Js

  /** The values a field can hold: undefined, the JSON kinds, and objects or
      arrays, which are opaque here. */
  datatype Value =
    | Undefined
    | Null
    | Bool(b: bool)
    | Num(n: real)
    | Str(s: string)
    | Compound(id: nat)

  predicate IsTruthy(v: Value) {
    match v
    case Undefined => false
    case Null => false
    case Bool(b) => b
    case Num(n) => n != 0.0
    case Str(s) => s != ""
    case Compound(_) => true
  }

  const InvalidJson := "Invalid JSON format"

  datatype FieldState = FieldState(value: Value, jsonError: Option<string>)

  /** handleChange: every change clears the error and stores the new value. */
  function Change(st: FieldState, newValue: Value): (r: FieldState)
    ensures r.value == newValue && r.jsonError.None?
  {
    FieldState(newValue, None)
  }

  /** handleJsonChange: blank text clears the value; text JSON.parse accepts
      stores the parsed value; other text is stored as typed, with the error. */
  function JsonEdit(st: FieldState, text: string, parse: string -> Option<Value>): (r: FieldState)
    ensures IsBlank(text) ==> r == FieldState(Undefined, None)
    ensures !IsBlank(text) && parse(text).Some? ==> r == FieldState(parse(text).value, None)
    ensures !IsBlank(text) && parse(text).None? ==> r == FieldState(Str(text), Some(InvalidJson))
  {
    TrimEmptyIffBlank(text);
    if Trim(text) == "" then
      Change(st, Undefined).(jsonError := None)
    else
      match parse(text)
      case Some(parsed) => Change(st, parsed).(jsonError := None)
      case None => st.(value := Str(text)).(jsonError := Some(InvalidJson))
  }

  /** handleFormatJson: parseable text replaces the value with the parsed
      result; otherwise only the error is set and the value is kept. */
  function Format(st: FieldState, text: string, parse: string -> Option<Value>): (r: FieldState)
    ensures parse(text).Some? ==> r == FieldState(parse(text).value, None)
    ensures parse(text).None? ==> r == st.(jsonError := Some(InvalidJson))
  {
    match parse(text)
    case Some(parsed) => Change(st, parsed).(jsonError := None)
    case None => st.(jsonError := Some(InvalidJson))
  }

  /** The number input's onChange: "" clears the value, a number is stored,
      and text that is not a number changes nothing. */
  function NumberEdit(st: FieldState, text: string, toNumber: string -> Option<real>): (r: FieldState)
    ensures text == "" ==> r == FieldState(Undefined, None)
    ensures text != "" && toNumber(text).Some? ==> r == FieldState(Num(toNumber(text).value), None)
    ensures text != "" && toNumber(text).None? ==> r == st
  {
    if text == "" then Change(st, Undefined)
    else match toNumber(text)
      case Some(num) => Change(st, Num(num))
      case None => st
  }

  /** The Format button's `disabled`: the button is enabled exactly for
      non-empty text with no error. */
  function FormatDisabled(st: FieldState): (disabled: bool)
    ensures !disabled <==> st.value.Str? && st.value.s != "" && !Truthy(st.jsonError)
  {
    !IsTruthy(st.value) || !st.value.Str? || Truthy(st.jsonError)
  }

  /** The Format button's onClick: a disabled button does nothing; an enabled
      one formats the current text. */
  function FormatClick(st: FieldState, parse: string -> Option<Value>): (r: FieldState)
    ensures FormatDisabled(st) ==> r == st
    ensures !FormatDisabled(st) && parse(st.value.s).Some? ==> r == FieldState(parse(st.value.s).value, None)
    ensures !FormatDisabled(st) && parse(st.value.s).None? ==> r == st.(jsonError := Some(InvalidJson))
  {
    if FormatDisabled(st) then st else Format(st, st.value.s, parse)
  }

  /** The JSON textarea shows a string value as it is and anything else as
      its JSON text, or nothing when there is none. */
  function Display(v: Value, stringify: Value -> Option<string>): (text: string)
    ensures v.Str? ==> text == v.s
    ensures !v.Str? && stringify(v).Some? ==> text == stringify(v).value
    ensures !v.Str? && stringify(v).None? ==> text == ""
  {
    if v.Str? then v.s else if stringify(v).Some? then stringify(v).value else ""
  }

  /** The error cell only ever holds null or "Invalid JSON format". */
  predicate ErrorWellformed(st: FieldState) {
    st.jsonError.None? || st.jsonError == Some(InvalidJson)
  }

  lemma HandlersKeepErrorWellformed(st: FieldState, v: Value, text: string,
                                    parse: string -> Option<Value>, toNumber: string -> Option<real>)
    requires ErrorWellformed(st)
    ensures ErrorWellformed(Change(st, v))
    ensures ErrorWellformed(JsonEdit(st, text, parse))
    ensures ErrorWellformed(Format(st, text, parse))
    ensures ErrorWellformed(NumberEdit(st, text, toNumber))
    ensures ErrorWellformed(FormatClick(st, parse))
  {
  }

  /** Invalid JSON text stays on screen as typed, and the error is shown. */
  lemma InvalidTextIsEchoed(st: FieldState, text: string, parse: string -> Option<Value>,
                            stringify: Value -> Option<string>)
    requires !IsBlank(text) && parse(text).None?
    ensures Display(JsonEdit(st, text, parse).value, stringify) == text
    ensures Truthy(JsonEdit(st, text, parse).jsonError)
  {
  }

  /** After editing the JSON text, Format is enabled only when the text
      parses to a non-empty string: parsing to an object, array, number or
      other non-string leaves a value the button refuses, and invalid text
      sets the error. */
  lemma FormatAfterJsonEdit(st: FieldState, text: string, parse: string -> Option<Value>)
    ensures !FormatDisabled(JsonEdit(st, text, parse)) <==>
              !IsBlank(text) && parse(text).Some? && parse(text).value.Str? && parse(text).value.s != ""
  {
  }

  /** Formatting twice is formatting once, given the same text. */
  lemma FormatIdempotent(st: FieldState, text: string, parse: string -> Option<Value>)
    ensures Format(Format(st, text, parse), text, parse) == Format(st, text, parse)
  {
  }

  /** One rendered field: the parent's value and the component's error cell. */
  class ConfigField {
    var value: Value
    var jsonError: Option<string>

    function State(): FieldState
      reads this
    {
      FieldState(value, jsonError)
    }

    constructor (initial: Value)
      ensures State() == FieldState(initial, None)
    {
      value := initial;
      jsonError := None;
    }

    method HandleChange(newValue: Value)
      modifies this
      ensures State() == Change(old(State()), newValue)
    {
      jsonError := None;
      value := newValue;
    }

    method HandleJsonChange(jsonString: string, parse: string -> Option<Value>)
      modifies this
      ensures State() == JsonEdit(old(State()), jsonString, parse)
    {
      if Trim(jsonString) == "" {
        HandleChange(Undefined);
        jsonError := None;
        return;
      }
      var parsed := parse(jsonString);
      if parsed.Some? {
        HandleChange(parsed.value);
        jsonError := None;
      } else {
        value := Str(jsonString);
        jsonError := Some(InvalidJson);
      }
    }

    method HandleFormatJson(jsonString: string, parse: string -> Option<Value>)
      modifies this
      ensures State() == Format(old(State()), jsonString, parse)
    {
      var parsed := parse(jsonString);
      if parsed.Some? {
        HandleChange(parsed.value);
        jsonError := None;
      } else {
        jsonError := Some(InvalidJson);
      }
    }

    method HandleNumberInput(text: string, toNumber: string -> Option<real>)
      modifies this
      ensures State() == NumberEdit(old(State()), text, toNumber)
    {
      if text == "" {
        HandleChange(Undefined);
      } else {
        var num := toNumber(text);
        if num.Some? {
          HandleChange(Num(num.value));
        }
      }
    }

    method ClickFormat(parse: string -> Option<Value>)
      modifies this
      ensures State() == FormatClick(old(State()), parse)
    {
      if !FormatDisabled(State()) {
        HandleFormatJson(value.s, parse);
      }
    }
  }
}
