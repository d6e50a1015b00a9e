/**
 * Kotlin's `String.toIntOrNull()` and `Int.toString()` on decimal digits.
 */
module Integers {
  import opened Wrappers

  const IntMin: int := -0x8000_0000
  const IntMax: int := 0x7FFF_FFFF

  predicate IsDigit(c: char)
  {
    '0' <= c <= '9'
  }

  predicate AllDigits(s: string)
  {
    forall i :: 0 <= i < |s| ==> IsDigit(s[i])
  }

  /** The value of a string of decimal digits, most significant first. */
  function DigitsValue(s: string): nat
    requires AllDigits(s)
  {
    if s == [] then 0 else DigitsValue(s[..|s| - 1]) * 10 + (s[|s| - 1] as int - '0' as int)
  }

  /** The digits after an optional leading sign. */
  function Unsigned(s: string): string
  {
    if s != [] && (s[0] == '-' || s[0] == '+') then s[1..] else s
  }

  /** The value of a sign and digits. */
  function SignedValue(s: string): int
    requires Unsigned(s) != [] && AllDigits(Unsigned(s))
  {
    var magnitude: int := DigitsValue(Unsigned(s));
    if s[0] == '-' then -magnitude else magnitude
  }

  /**
   * `toIntOrNull()`: an optional `-` or `+`, then at least one digit, and a
   * value within the 32-bit range; null otherwise.
   */
  function ToIntOrNull(s: string): (r: Option<int>)
    ensures r.Some? ==> IntMin <= r.value <= IntMax
    ensures r.Some? <==> Unsigned(s) != [] && AllDigits(Unsigned(s)) && IntMin <= SignedValue(s) <= IntMax
    ensures r.Some? ==> r.value == SignedValue(s)
  {
    var digits := Unsigned(s);
    if digits == [] || !AllDigits(digits) then None
    else
      var n := SignedValue(s);
      if IntMin <= n <= IntMax then Some(n) else None
  }

  function DigitChar(d: nat): (c: char)
    requires d < 10
    ensures IsDigit(c) && c as int - '0' as int == d
  {
    ('0' as int + d) as char
  }

  /** The decimal digits of `n`, without leading zeros. */
  function NatToString(n: nat): (s: string)
    ensures s != [] && AllDigits(s)
    decreases n
  {
    if n < 10 then [DigitChar(n)] else NatToString(n / 10) + [DigitChar(n % 10)]
  }

  /** `Int.toString()`. */
  function IntToString(n: int): string
  {
    if n < 0 then "-" + NatToString(-n) else NatToString(n)
  }

  lemma {:induction false} DigitsValueOfNatToString(n: nat)
    ensures DigitsValue(NatToString(n)) == n
    decreases n
  {
    var s := NatToString(n);
    if n >= 10 {
      DigitsValueOfNatToString(n / 10);
      assert s[..|s| - 1] == NatToString(n / 10);
    }
  }

  /** What `toString` writes, `toIntOrNull` reads back. */
  lemma {:induction false} ToIntOrNullOfIntToString(n: int)
    requires IntMin <= n <= IntMax
    ensures ToIntOrNull(IntToString(n)) == Some(n)
  {
    var s := IntToString(n);
    if n < 0 {
      DigitsValueOfNatToString(-n);
      assert Unsigned(s) == NatToString(-n);
    } else {
      DigitsValueOfNatToString(n);
      assert IsDigit(s[0]);
      assert Unsigned(s) == s;
    }
  }
}

/**
 * The console's choice among several extensions registered for a singleton
 * extension point (mirai-console,
 * internal/extension/SingletonExtensionSelectorImpl.kt). A choice made at the
 * prompt is saved in the `ExtensionSelector` config, a map from extension
 * type name to the chosen extension's class name. What the user types at the
 * prompt is the parameter `choice`.
 */
module SingletonExtensionSelectors {
  import opened Wrappers
  import opened Integers

  /** An extension, identified by its class's qualified name. */
  datatype Extension = Extension(className: string, description: string)

  /** `SingletonExtensionSelector.Registry`: an extension and the plugin (by name) that registered it, if any. */
  datatype Registry = Registry(extension: Extension, plugin: Option<string>)

  /** How a manual selection fails. */
  datatype SelectionError =
      /** `error("Bad choice")`: the input is not an integer. */
    | BadChoice
      /** `candidatesList[choice - 1]` with an index outside the list: an IndexOutOfBoundsException. */
    | IndexOutOfBounds(index: int)

  const BadChoiceMessage: string := "Bad choice"

  /** What selectSingleton does for these candidates and this saved choice. */
  datatype Decision =
    | NoCandidate
    | Only(extension: Extension)
    | Saved(extension: Extension)
    | Prompt

  /** The index of the first candidate whose extension has this class name. */
  function FirstWithClass(candidates: seq<Registry>, className: string): (r: Option<nat>)
    ensures r.None? <==> forall i :: 0 <= i < |candidates| ==> candidates[i].extension.className != className
    ensures r.Some? ==> r.value < |candidates| && candidates[r.value].extension.className == className
    ensures r.Some? ==> forall i :: 0 <= i < r.value ==> candidates[i].extension.className != className
  {
    if candidates == [] then None
    else if candidates[0].extension.className == className then Some(0)
    else
      var r := FirstWithClass(candidates[1..], className);
      if r.Some? then Some(r.value + 1) else None
  }

  /**
   * The `when` of selectSingleton: no candidate gives null, a single one is
   * taken without looking at the config, and among several the saved class
   * name picks the first match; without a saved name or a match, the user
   * is asked.
   */
  function Decide(candidates: seq<Registry>, saved: Option<string>): (d: Decision)
    ensures candidates == [] <==> d == NoCandidate
    ensures |candidates| == 1 <==> d.Only?
    ensures d.Only? ==> d.extension == candidates[0].extension
    ensures d.Saved? ==> |candidates| > 1 && saved.Some? && FirstWithClass(candidates, saved.value).Some? &&
                         d.extension == candidates[FirstWithClass(candidates, saved.value).value].extension
    ensures d == Prompt <==> |candidates| > 1 && (saved.None? || FirstWithClass(candidates, saved.value).None?)
  {
    if candidates == [] then NoCandidate
    else if |candidates| == 1 then Only(candidates[0].extension)
    else if saved.None? then Prompt
    else
      match FirstWithClass(candidates, saved.value)
      case None => Prompt
      case Some(i) => Saved(candidates[i].extension)
  }

  /** `promptForManualSelection`: the typed number `k` picks the `k`-th candidate, counting from 1. */
  function ManualSelection(candidates: seq<Registry>, choice: string): (r: Result<Registry, SelectionError>)
    ensures ToIntOrNull(choice).None? <==> r == Err(BadChoice)
    ensures r.Ok? <==> ToIntOrNull(choice).Some? && 1 <= ToIntOrNull(choice).value <= |candidates|
    ensures r.Ok? ==> r.value == candidates[ToIntOrNull(choice).value - 1]
    ensures r.Err? && r.error.IndexOutOfBounds? ==>
              r.error.index == if ToIntOrNull(choice).value == IntMin then IntMax else ToIntOrNull(choice).value - 1
  {
    match ToIntOrNull(choice)
    case None => Err(BadChoice)
    case Some(k) =>
      // `choice - 1` is 32-bit arithmetic: it wraps around below IntMin.
      if 1 <= k <= |candidates| then Ok(candidates[k - 1])
      else Err(IndexOutOfBounds(if k == IntMin then IntMax else k - 1))
  }

  /** Typing a candidate's number, as the prompt lists them, selects that candidate. */
  lemma {:induction false} TypingTheListedNumber(candidates: seq<Registry>, i: nat)
    requires i < |candidates| && |candidates| <= IntMax
    ensures ManualSelection(candidates, IntToString(i + 1)) == Ok(candidates[i])
  {
    ToIntOrNullOfIntToString(i + 1);
  }

  class SingletonExtensionSelectorImpl {
    /** `config.value`: extension type name to chosen class name. */
    var config: map<string, string>

    constructor (saved: map<string, string>)
      ensures config == saved
    {
      config := saved;
    }

    /** `promptForSelectionAndSave`: select by hand and remember the chosen class under the extension type. */
    method PromptForSelectionAndSave(extensionType: string, candidates: seq<Registry>, choice: string)
      returns (r: Result<Extension, SelectionError>)
      modifies this
      ensures ManualSelection(candidates, choice).Err? ==>
                r == Err(ManualSelection(candidates, choice).error) && config == old(config)
      ensures ManualSelection(candidates, choice).Ok? ==>
                var chosen := ManualSelection(candidates, choice).value.extension;
                r == Ok(chosen) && config == old(config)[extensionType := chosen.className]
    {
      var selected := ManualSelection(candidates, choice);
      if selected.Err? {
        return Err(selected.error);
      }
      config := config[extensionType := selected.value.extension.className];
      r := Ok(selected.value.extension);
    }

    /**
     * `selectSingleton(extensionType, candidates)`: the extension chosen, or
     * None when there is no candidate. Only the entry for `extensionType` of
     * the config can change, and only when the user was asked.
     */
    method SelectSingleton(extensionType: string, candidates: seq<Registry>, choice: string)
      returns (r: Result<Option<Extension>, SelectionError>)
      modifies this
      ensures var d := Decide(candidates, if extensionType in old(config) then Some(old(config)[extensionType]) else None);
              match d
              case NoCandidate => r == Ok(None) && config == old(config)
              case Only(e) => r == Ok(Some(e)) && config == old(config)
              case Saved(e) => r == Ok(Some(e)) && config == old(config)
              case Prompt =>
                match ManualSelection(candidates, choice)
                case Err(error) => r == Err(error) && config == old(config)
                case Ok(chosen) =>
                  r == Ok(Some(chosen.extension)) && config == old(config)[extensionType := chosen.extension.className]
      ensures forall t :: t != extensionType ==> (t in config <==> t in old(config)) && (t in config ==> config[t] == old(config)[t])
    {
      var saved := if extensionType in config then Some(config[extensionType]) else None;
      var d := Decide(candidates, saved);
      match d
      case NoCandidate =>
        r := Ok(None);
      case Only(e) =>
        r := Ok(Some(e));
      case Saved(e) =>
        r := Ok(Some(e));
      case Prompt =>
        var selected := PromptForSelectionAndSave(extensionType, candidates, choice);
        r := if selected.Ok? then Ok(Some(selected.value)) else Err(selected.error);
    }
  }
}
