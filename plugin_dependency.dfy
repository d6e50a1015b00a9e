/**
 * A plugin's dependency on another plugin (mirai-console,
 * plugin/description/PluginDependency.kt): an id, an optional version
 * requirement and an "optional" flag, written and read as the string
 * `id[:versionRequirement][?]`.
 *
 * The two validators the constructor runs, `PluginDescription.checkPluginId`
 * and `SemVersion.parseRangeRequirement`, are not part of this model; they are
 * the parameters `idOk` and `rangeOk`, true where the validator returns
 * normally.
 */
module PluginDependencies {
  import opened Wrappers

  datatype PluginDependency = PluginDependency(id: string, versionRequirement: Option<string>, isOptional: bool)

  /** Why a dependency could not be built. */
  datatype DependencyError =
      /** `require(string.isNotEmpty())` failed: an IllegalArgumentException with message `EmptyMessage`. */
    | StringIsEmpty
      /** A validator rejected the id or the version requirement: an IllegalArgumentException wrapping its error. */
    | InvalidDependency

  const EmptyMessage: string := "string is empty."

  /** The checks of the `init` block: the id is valid, and so is the requirement when there is one. */
  predicate Accepted(d: PluginDependency, idOk: string -> bool, rangeOk: string -> bool)
  {
    idOk(d.id) && (d.versionRequirement.Some? ==> rangeOk(d.versionRequirement.value))
  }

  /** The primary constructor, with its `init` checks. */
  function Create(id: string, versionRequirement: Option<string>, isOptional: bool,
                  idOk: string -> bool, rangeOk: string -> bool): (r: Result<PluginDependency, DependencyError>)
    ensures r.Ok? <==> idOk(id) && (versionRequirement.Some? ==> rangeOk(versionRequirement.value))
    ensures r.Ok? ==> r.value == PluginDependency(id, versionRequirement, isOptional) && Accepted(r.value, idOk, rangeOk)
    ensures r.Err? ==> r.error == InvalidDependency
  {
    var d := PluginDependency(id, versionRequirement, isOptional);
    if Accepted(d, idOk, rangeOk) then Ok(d) else Err(InvalidDependency)
  }

  /** The secondary constructor `PluginDependency(id, isOptional)`: no version requirement. */
  function CreateUnversioned(id: string, isOptional: bool,
                             idOk: string -> bool, rangeOk: string -> bool): (r: Result<PluginDependency, DependencyError>)
    ensures r.Ok? <==> idOk(id)
    ensures r.Ok? ==> r.value.id == id && r.value.versionRequirement == None && r.value.isOptional == isOptional
    ensures r.Err? ==> r.error == InvalidDependency
  {
    Create(id, None, isOptional, idOk, rangeOk)
  }

  /** `id`, then `:` and the requirement when there is one. */
  function Body(d: PluginDependency): string
  {
    d.id + (if d.versionRequirement.Some? then ":" + d.versionRequirement.value else "")
  }

  /** `toString()`: the body, then `?` when the dependency is optional. */
  function ToString(d: PluginDependency): (r: string)
    ensures |r| == |d.id| + (if d.versionRequirement.Some? then 1 + |d.versionRequirement.value| else 0)
                  + (if d.isOptional then 1 else 0)
    ensures r[..|d.id|] == d.id
    ensures d.versionRequirement.Some? ==> r[|d.id|] == ':'
    ensures d.versionRequirement.Some? ==>
              r[|d.id| + 1..|d.id| + 1 + |d.versionRequirement.value|] == d.versionRequirement.value
    ensures d.isOptional ==> r[|r| - 1] == '?'
  {
    var r := Body(d) + (if d.isOptional then "?" else "");
    assert d.versionRequirement.Some? ==>
             r[|d.id| + 1..|d.id| + 1 + |d.versionRequirement.value|] == Body(d)[|d.id| + 1..];
    r
  }

  /** The index of the last `c` in `s`, if any: `lastIndexOf(c)`. */
  function LastIndexOf(s: string, c: char): (r: Option<nat>)
    ensures r.None? <==> c !in s
    ensures r.Some? ==> r.value < |s| && s[r.value] == c && c !in s[r.value + 1..]
  {
    if s == [] then None
    else if s[|s| - 1] == c then Some(|s| - 1)
    else
      var r := LastIndexOf(s[..|s| - 1], c);
      assert s == s[..|s| - 1] + [s[|s| - 1]];
      if r.Some? then
        assert s[r.value + 1..] == s[..|s| - 1][r.value + 1..] + [s[|s| - 1]];
        r
      else r
  }

  /**
   * The `(id, version)` pair of parseFromString: split at the last `:`
   * (substringBeforeLast / substringAfterLast), or the whole rule and no
   * version when it has none.
   */
  function SplitRule(rule: string): (r: (string, Option<string>))
    ensures r.1.None? <==> ':' !in rule
    ensures r.1.None? ==> r.0 == rule
    ensures r.1.Some? ==> rule == r.0 + ":" + r.1.value && ':' !in r.1.value
  {
    match LastIndexOf(rule, ':')
    case None => (rule, None)
    case Some(i) =>
      assert rule == rule[..i] + ":" + rule[i + 1..];
      (rule[..i], Some(rule[i + 1..]))
  }

  /** A rule whose requirement holds no `:` is split exactly where `:` and the requirement were appended. */
  lemma {:induction false} SplitAtLastColon(id: string, requirement: string)
    requires ':' !in requirement
    ensures SplitRule(id + ":" + requirement) == (id, Some(requirement))
  {
    var rule := id + ":" + requirement;
    assert rule[|id|] == ':';
    var i := LastIndexOf(rule, ':').value;
    assert i == |id|;
    assert rule[..i] == id && rule[i + 1..] == requirement;
  }

  /** `removeSuffix("?")`: the string without one trailing `?`. */
  function Rule(s: string): (r: string)
    ensures s != [] && s[|s| - 1] == '?' ==> r + "?" == s
    ensures !(s != [] && s[|s| - 1] == '?') ==> r == s
  {
    if s != [] && s[|s| - 1] == '?' then s[..|s| - 1] else s
  }

  /** `parseFromString(string)`. Only one trailing `?` is removed (`removeSuffix("?")`). */
  function Parse(s: string, idOk: string -> bool, rangeOk: string -> bool): (r: Result<PluginDependency, DependencyError>)
    ensures s == [] <==> r == Err(StringIsEmpty)
    ensures r.Ok? ==> (r.value.isOptional <==> s[|s| - 1] == '?')
    ensures r.Ok? ==> Accepted(r.value, idOk, rangeOk)
  {
    if s == [] then Err(StringIsEmpty)
    else
      var split := SplitRule(Rule(s));
      Create(split.0, split.1, s[|s| - 1] == '?', idOk, rangeOk)
  }

  /** Splitting a rule and writing the parts back gives the rule. */
  lemma BodyOfSplit(rule: string, isOptional: bool)
    ensures Body(PluginDependency(SplitRule(rule).0, SplitRule(rule).1, isOptional)) == rule
  {
    var split := SplitRule(rule);
    if split.1.Some? {
      assert split.0 + ":" + split.1.value == split.0 + (":" + split.1.value);
    }
  }

  /** The string serializer writes `ToString` and reads `Parse`; whatever it reads, it writes back unchanged. */
  lemma {:induction false} ToStringOfParse(s: string, idOk: string -> bool, rangeOk: string -> bool)
    requires Parse(s, idOk, rangeOk).Ok?
    ensures ToString(Parse(s, idOk, rangeOk).value) == s
  {
    var optional := s[|s| - 1] == '?';
    BodyOfSplit(Rule(s), optional);
    assert Parse(s, idOk, rangeOk).value == PluginDependency(SplitRule(Rule(s)).0, SplitRule(Rule(s)).1, optional);
  }

  /**
   * A dependency survives being written and read back when reading it cannot
   * split or strip differently from how it was written: the last `:` is the
   * one before the requirement (or there is none), and a non-optional
   * rendering does not end in `?` and is not empty.
   */
  predicate Unambiguous(d: PluginDependency)
  {
    && (if d.versionRequirement.Some? then ':' !in d.versionRequirement.value else ':' !in d.id)
    && (!d.isOptional ==> Body(d) != [] && Body(d)[|Body(d)| - 1] != '?')
  }

  /** Stripping the suffix of an unambiguous rendering gives back its body. */
  lemma RuleOfToString(d: PluginDependency)
    requires Unambiguous(d)
    ensures ToString(d) != [] && (ToString(d)[|ToString(d)| - 1] == '?' <==> d.isOptional)
    ensures Rule(ToString(d)) == Body(d)
  {
    var s := ToString(d);
    if d.isOptional {
      assert s == Body(d) + "?";
      assert s[..|s| - 1] == Body(d);
    } else {
      assert s == Body(d);
    }
  }

  /** The body of an unambiguous dependency splits back into its id and requirement. */
  lemma SplitOfBody(d: PluginDependency)
    requires Unambiguous(d)
    ensures SplitRule(Body(d)) == (d.id, d.versionRequirement)
  {
    if d.versionRequirement.Some? {
      SplitAtLastColon(d.id, d.versionRequirement.value);
      assert Body(d) == d.id + ":" + d.versionRequirement.value;
    } else {
      assert Body(d) == d.id;
    }
  }

  lemma {:induction false} ParseOfToString(d: PluginDependency, idOk: string -> bool, rangeOk: string -> bool)
    requires Accepted(d, idOk, rangeOk) && Unambiguous(d)
    ensures Parse(ToString(d), idOk, rangeOk) == Ok(d)
  {
    RuleOfToString(d);
    SplitOfBody(d);
  }

  /** The round trip holds exactly for the accepted, unambiguous dependencies. */
  lemma {:induction false} RoundTripExactly(d: PluginDependency, idOk: string -> bool, rangeOk: string -> bool)
    ensures Parse(ToString(d), idOk, rangeOk) == Ok(d) <==> Accepted(d, idOk, rangeOk) && Unambiguous(d)
  {
    if Accepted(d, idOk, rangeOk) && Unambiguous(d) {
      ParseOfToString(d, idOk, rangeOk);
    }
    if Parse(ToString(d), idOk, rangeOk) == Ok(d) {
      ReadBackIsUnambiguous(d, idOk, rangeOk);
    }
  }

  /** A dependency that reads back as itself is unambiguous. */
  lemma ReadBackIsUnambiguous(d: PluginDependency, idOk: string -> bool, rangeOk: string -> bool)
    requires Parse(ToString(d), idOk, rangeOk) == Ok(d)
    ensures Unambiguous(d)
  {
    var s := ToString(d);
    var split := SplitRule(Rule(s));
    assert split.0 == d.id && split.1 == d.versionRequirement;
    if d.isOptional {
      assert s == Body(d) + "?";
      assert Rule(s) == Body(d);
    } else {
      assert s[|s| - 1] != '?';
      assert Body(d) == s;
    }
  }
}
