/**
 * The serialization core of plugin data (mirai-console,
 * internal/data/PluginDataImpl.kt): the annotations a value carries into its
 * serial descriptor, the lookup of a value node by name, and the loops that
 * decode and encode a plugin data object element by element.
 *
 * A value node is known by its name and annotations; what its own updater
 * serializer does with an element is not part of this file, so decoding and
 * encoding are modelled by the calls they make: which element index goes to
 * which node's serializer (or to the dynamic YAML serializer, which discards
 * the value), in which order. A raw element is its encoded text.
 */
module PluginDataImpls {
  import opened Wrappers
  import Text

  /** The annotations the rewrite tells apart. */
  datatype Annotation =
    | SerialName(name: string)
    | ValueName(name: string)
    | ValueDescription(text: string)
      /** yamlkt's `Comment`. */
    | Comment(text: string)
    | OtherAnnotation(className: string)

  const SerialNameMessage: string := "@SerialName is not supported on Value. Please use @ValueName instead"

  /** The `when` inside getAnnotationListForValueSerialization, for one annotation: fail, drop, convert or keep. */
  function RewriteOne(a: Annotation): (r: Result<Option<Annotation>, string>)
    ensures r.Err? <==> a.SerialName?
    ensures r.Err? ==> r.error == SerialNameMessage
    ensures a.ValueName? ==> r == Ok(None)
    ensures a.ValueDescription? ==> r == Ok(Some(Comment(a.text)))
    ensures a.Comment? || a.OtherAnnotation? ==> r == Ok(Some(a))
  {
    match a
    case SerialName(_) => Err(SerialNameMessage)
    case ValueName(_) => Ok(None)
    case ValueDescription(text) => Ok(Some(Comment(text)))
    case Comment(_) => Ok(Some(a))
    case OtherAnnotation(_) => Ok(Some(a))
  }

  /** How many of the annotations are `ValueName`s. */
  function CountValueNames(annotations: seq<Annotation>): nat
  {
    if annotations == [] then 0
    else (if annotations[0].ValueName? then 1 else 0) + CountValueNames(annotations[1..])
  }

  /**
   * `getAnnotationListForValueSerialization()`: `mapNotNull` of `RewriteOne`
   * in order; the first `SerialName` makes the whole call fail.
   */
  function RewriteAnnotations(annotations: seq<Annotation>): (r: Result<seq<Annotation>, string>)
    ensures r.Err? <==> exists i :: 0 <= i < |annotations| && annotations[i].SerialName?
    ensures r.Err? ==> r.error == SerialNameMessage
    ensures r.Ok? ==> |r.value| == |annotations| - CountValueNames(annotations)
    ensures r.Ok? ==> forall i :: 0 <= i < |r.value| ==> r.value[i].Comment? || r.value[i].OtherAnnotation?
    ensures |annotations| == 1 ==>
              var one := RewriteOne(annotations[0]);
              r == if one.Err? then Err(one.error) else Ok(if one.value.Some? then [one.value.value] else [])
  {
    if annotations == [] then Ok([])
    else
      var head := RewriteOne(annotations[0]);
      var rest := RewriteAnnotations(annotations[1..]);
      assert forall i :: 1 <= i < |annotations| ==> annotations[i] == annotations[1..][i - 1];
      assert |annotations| == 1 ==> rest == Ok([]) by { assert |annotations| == 1 ==> annotations[1..] == []; }
      if head.Err? then Err(head.error)
      else if rest.Err? then Err(rest.error)
      else
        var kept := if head.value.Some? then [head.value.value] else [];
        assert rest.value == [] ==> kept + rest.value == kept;
        Ok(kept + rest.value)
  }

  /**
   * The rewrite works annotation by annotation: rewriting two lists one after
   * the other is rewriting them separately and concatenating the results.
   */
  lemma {:induction false} RewriteConcat(a: seq<Annotation>, b: seq<Annotation>)
    ensures RewriteAnnotations(a + b) ==
              if RewriteAnnotations(a).Err? || RewriteAnnotations(b).Err? then Err(SerialNameMessage)
              else Ok(RewriteAnnotations(a).value + RewriteAnnotations(b).value)
    decreases |a|
  {
    if a == [] {
      assert a + b == b;
      var rb := RewriteAnnotations(b);
      if rb.Ok? {
        assert [] + rb.value == rb.value;
      }
    } else {
      assert (a + b)[1..] == a[1..] + b;
      assert (a + b)[0] == a[0];
      RewriteConcat(a[1..], b);
      var head := RewriteOne(a[0]);
      var ra, rb := RewriteAnnotations(a[1..]), RewriteAnnotations(b);
      if head.Ok? && ra.Ok? && rb.Ok? {
        var h := if head.value.Some? then [head.value.value] else [];
        assert h + (ra.value + rb.value) == (h + ra.value) + rb.value;
      }
    }
  }

  /** Annotations the rewrite neither drops nor converts pass through unchanged, one by one. */
  lemma {:induction false} RewriteKeepsPlainAnnotations(annotations: seq<Annotation>)
    requires forall i :: 0 <= i < |annotations| ==> annotations[i].Comment? || annotations[i].OtherAnnotation?
    ensures RewriteAnnotations(annotations) == Ok(annotations)
    decreases |annotations|
  {
    if annotations != [] {
      assert forall i :: 0 <= i < |annotations[1..]| ==> annotations[1..][i] == annotations[i + 1];
      RewriteKeepsPlainAnnotations(annotations[1..]);
      assert annotations == [annotations[0]] + annotations[1..];
    }
  }

  /** A value node: its serial name and the annotations of its property. */
  datatype ValueNode = ValueNode(valueName: string, annotations: seq<Annotation>)

  /** `findNodeInstance(name)`: the index of the first node with this name (`firstOrNull`), if any. */
  function FindNodeInstance(nodes: seq<ValueNode>, name: string): (r: Option<nat>)
    ensures r.None? <==> forall i :: 0 <= i < |nodes| ==> nodes[i].valueName != name
    ensures r.Some? ==> r.value < |nodes| && nodes[r.value].valueName == name
    ensures r.Some? ==> forall i :: 0 <= i < r.value ==> nodes[i].valueName != name
  {
    if nodes == [] then None
    else if nodes[0].valueName == name then Some(0)
    else
      var r := FindNodeInstance(nodes[1..], name);
      if r.Some? then Some(r.value + 1) else None
  }

  /** Nodes added after a lookup succeeded do not change what it finds. */
  lemma {:induction false} FindNodeInstanceExtended(nodes: seq<ValueNode>, more: seq<ValueNode>, name: string)
    requires FindNodeInstance(nodes, name).Some?
    ensures FindNodeInstance(nodes + more, name) == FindNodeInstance(nodes, name)
  {
    var i := FindNodeInstance(nodes, name).value;
    var j := FindNodeInstance(nodes + more, name);
    assert (nodes + more)[i] == nodes[i];
  }

  /** The class serial descriptor: one optional element per value node, with its name and annotations. */
  datatype SerialDescriptor = SerialDescriptor(serialName: string, elementNames: seq<string>, elementAnnotations: seq<seq<Annotation>>)

  /** The `descriptor` built from `saveName` and the value nodes. */
  function DescriptorOf(saveName: string, nodes: seq<ValueNode>): (d: SerialDescriptor)
    ensures d.serialName == saveName
    ensures |d.elementNames| == |nodes| == |d.elementAnnotations|
    ensures forall i :: 0 <= i < |nodes| ==> d.elementNames[i] == nodes[i].valueName && d.elementAnnotations[i] == nodes[i].annotations
  {
    SerialDescriptor(saveName,
                     seq(|nodes|, i requires 0 <= i < |nodes| => nodes[i].valueName),
                     seq(|nodes|, i requires 0 <= i < |nodes| => nodes[i].annotations))
  }

  /** No two value nodes share a name. */
  predicate DistinctNames(nodes: seq<ValueNode>)
  {
    forall i, j :: 0 <= i < j < |nodes| ==> nodes[i].valueName != nodes[j].valueName
  }

  /** The index of the first node whose name an earlier node already has, if any. */
  function FirstRepeated(nodes: seq<ValueNode>): (r: Option<nat>)
    ensures r.None? <==> DistinctNames(nodes)
    ensures r.Some? ==> && r.value < |nodes|
                        && DistinctNames(nodes[..r.value])
                        && FindNodeInstance(nodes[..r.value], nodes[r.value].valueName).Some?
  {
    if nodes == [] then None
    else
      var init := nodes[..|nodes| - 1];
      var r := FirstRepeated(init);
      assert forall i :: 0 <= i < |init| ==> init[i] == nodes[i];
      if r.Some? then
        assert init[..r.value] == nodes[..r.value];
        r
      else if FindNodeInstance(init, nodes[|nodes| - 1].valueName).Some? then
        Some(|nodes| - 1)
      else
        None
  }

  /** Why a descriptor cannot be built: a blank serial name, or a second element with this name. */
  datatype DescriptorError = BlankSerialName | DuplicateElement(name: string)

  /** The error a failed build reports: the blank name first, otherwise the first repeated name. */
  function BuildError(saveName: string, nodes: seq<ValueNode>): DescriptorError
    requires Text.IsBlank(saveName) || !DistinctNames(nodes)
  {
    if Text.IsBlank(saveName) then BlankSerialName else DuplicateElement(nodes[FirstRepeated(nodes).value].valueName)
  }

  /**
   * `buildClassSerialDescriptor(saveName) { for (valueNode in valueNodes) element(...) }`:
   * kotlinx.serialization rejects a blank serial name before the builder
   * runs; then the elements are added one by one, and `element` rejects a
   * name it has already registered, which aborts the build.
   */
  method BuildDescriptor(saveName: string, nodes: seq<ValueNode>) returns (r: Result<SerialDescriptor, DescriptorError>)
    ensures r.Ok? <==> !Text.IsBlank(saveName) && DistinctNames(nodes)
    ensures r.Ok? ==> r.value == DescriptorOf(saveName, nodes)
    ensures Text.IsBlank(saveName) ==> r == Err(BlankSerialName)
    ensures !Text.IsBlank(saveName) && r.Err? ==>
              FirstRepeated(nodes).Some? && r.error == DuplicateElement(nodes[FirstRepeated(nodes).value].valueName)
  {
    if Text.IsBlank(saveName) {
      return Err(BlankSerialName);
    }
    var names: seq<string> := [];
    var annotations: seq<seq<Annotation>> := [];
    var uniqueNames: set<string> := {};
    var k := 0;
    while k < |nodes|
      invariant 0 <= k <= |nodes| && |names| == k && |annotations| == k
      invariant forall i :: 0 <= i < k ==> names[i] == nodes[i].valueName && annotations[i] == nodes[i].annotations
      invariant uniqueNames == set i | 0 <= i < k :: nodes[i].valueName
      invariant DistinctNames(nodes[..k])
    {
      var name := nodes[k].valueName;
      if name in uniqueNames {
        ghost var j :| 0 <= j < k && nodes[j].valueName == name;
        assert nodes[..k][j].valueName == name;
        assert FirstRepeated(nodes[..k + 1]) == Some(k) by {
          assert nodes[..k + 1][..k] == nodes[..k];
        }
        FirstRepeatedOfPrefix(nodes, k + 1);
        return Err(DuplicateElement(name));
      }
      assert forall i :: 0 <= i < k ==> nodes[i].valueName != name;
      uniqueNames := uniqueNames + {name};
      names := names + [name];
      annotations := annotations + [nodes[k].annotations];
      k := k + 1;
    }
    assert nodes[..k] == nodes;
    r := Ok(SerialDescriptor(saveName, names, annotations));
  }

  /** Once a prefix holds a repeated name, the whole list's first repetition is that prefix's. */
  lemma {:induction false} FirstRepeatedOfPrefix(nodes: seq<ValueNode>, n: nat)
    requires n <= |nodes| && FirstRepeated(nodes[..n]).Some?
    ensures FirstRepeated(nodes) == FirstRepeated(nodes[..n])
    decreases |nodes| - n
  {
    if n < |nodes| {
      assert nodes[..n + 1][..n] == nodes[..n];
      assert nodes[..n + 1][..|nodes[..n + 1]| - 1] == nodes[..n];
      FirstRepeatedOfPrefix(nodes, n + 1);
    } else {
      assert nodes[..n] == nodes;
    }
  }

  /** Two properties both named "a": the third node is the second "a", and the build fails there. */
  lemma SecondNameRepeats()
    ensures var nodes := [ValueNode("a", []), ValueNode("b", []), ValueNode("a", [])];
            !DistinctNames(nodes) && FirstRepeated(nodes) == Some(2)
  {
    var nodes := [ValueNode("a", []), ValueNode("b", []), ValueNode("a", [])];
    assert nodes[0].valueName == nodes[2].valueName;
    assert nodes[..2] == [ValueNode("a", []), ValueNode("b", [])];
    assert nodes[..1] == [ValueNode("a", [])];
  }

  /** One `decodeSerializableElement` call of deserialize. */
  datatype Decoding =
      /** The element at this index is a name, read with the string serializer (sequential mode). */
    | ReadName(elementIndex: nat)
      /** The element at this index goes to this node's updater serializer, or is discarded when there is none. */
    | ReadValue(elementIndex: nat, node: Option<nat>, raw: string)

  /**
   * What the decoder offers: whether `decodeSequentially()` says yes (None
   * when it throws, which counts as no); in sequential mode the name and value
   * of each of the collection's entries; otherwise the element indices
   * `decodeElementIndex` returns, up to DECODE_DONE, each with its value.
   */
  datatype Decoder = Decoder(decodesSequentially: Option<bool>, pairs: seq<(string, string)>, indexed: seq<(nat, string)>)

  /**
   * The sequential branch of deserialize: each entry takes two element
   * indices, its name's and its value's, and the value goes to the node
   * named like it.
   */
  method DecodeSequentially(nodes: seq<ValueNode>, pairs: seq<(string, string)>) returns (calls: seq<Decoding>, index: nat)
    ensures index == 2 * |pairs| && |calls| == index
    ensures forall k :: 0 <= k < |pairs| ==>
              && calls[2 * k] == ReadName(2 * k)
              && calls[2 * k + 1] == ReadValue(2 * k + 1, FindNodeInstance(nodes, pairs[k].0), pairs[k].1)
  {
    calls := [];
    index := 0;
    var k := 0;
    while k < |pairs|
      invariant 0 <= k <= |pairs| && index == 2 * k && |calls| == index
      invariant forall j :: 0 <= j < k ==>
                  && calls[2 * j] == ReadName(2 * j)
                  && calls[2 * j + 1] == ReadValue(2 * j + 1, FindNodeInstance(nodes, pairs[j].0), pairs[j].1)
    {
      var valueName := pairs[k].0;
      calls := calls + [ReadName(index)];
      index := index + 1;
      var node := FindNodeInstance(nodes, valueName);
      calls := calls + [ReadValue(index, node, pairs[k].1)];
      index := index + 1;
      k := k + 1;
    }
  }

  /**
   * The indexed branch of deserialize: each index the decoder returns names
   * an element of the descriptor, and its value goes to the node with that
   * name, or is discarded.
   */
  method DecodeByIndex(nodes: seq<ValueNode>, descriptor: SerialDescriptor, entries: seq<(nat, string)>)
    returns (calls: seq<Decoding>)
    requires forall j :: 0 <= j < |entries| ==> entries[j].0 < |descriptor.elementNames|
    ensures |calls| == |entries|
    ensures forall j :: 0 <= j < |entries| ==>
              calls[j] == ReadValue(entries[j].0, FindNodeInstance(nodes, descriptor.elementNames[entries[j].0]), entries[j].1)
  {
    calls := [];
    var j := 0;
    while j < |entries|
      invariant 0 <= j <= |entries| && |calls| == j
      invariant forall i :: 0 <= i < j ==>
                  calls[i] == ReadValue(entries[i].0, FindNodeInstance(nodes, descriptor.elementNames[entries[i].0]), entries[i].1)
    {
      var index := entries[j].0;
      var node := FindNodeInstance(nodes, descriptor.elementNames[index]);
      calls := calls + [ReadValue(index, node, entries[j].1)];
      j := j + 1;
    }
  }

  /** `deserialize(decoder)`: the sequential branch when the decoder says so, the indexed one otherwise. */
  method Deserialize(nodes: seq<ValueNode>, descriptor: SerialDescriptor, decoder: Decoder) returns (calls: seq<Decoding>)
    requires decoder.decodesSequentially != Some(true) ==>
               forall j :: 0 <= j < |decoder.indexed| ==> decoder.indexed[j].0 < |descriptor.elementNames|
    ensures decoder.decodesSequentially == Some(true) ==>
              |calls| == 2 * |decoder.pairs| &&
              forall k :: 0 <= k < |decoder.pairs| ==>
                && calls[2 * k] == ReadName(2 * k)
                && calls[2 * k + 1] == ReadValue(2 * k + 1, FindNodeInstance(nodes, decoder.pairs[k].0), decoder.pairs[k].1)
    ensures decoder.decodesSequentially != Some(true) ==>
              |calls| == |decoder.indexed| &&
              forall j :: 0 <= j < |decoder.indexed| ==>
                calls[j] == ReadValue(decoder.indexed[j].0,
                                      FindNodeInstance(nodes, descriptor.elementNames[decoder.indexed[j].0]),
                                      decoder.indexed[j].1)
  {
    if decoder.decodesSequentially == Some(true) {
      var index;
      calls, index := DecodeSequentially(nodes, decoder.pairs);
    } else {
      calls := DecodeByIndex(nodes, descriptor, decoder.indexed);
    }
  }

  /** The message encoding fails with when an element has no node. */
  function CannotFindMessage(name: string): string
  {
    "Cannot find a serializer for " + name
  }

  /** One `encodeSerializableElement` call: this element index, with this node's updater serializer. */
  datatype Encoding = Encoding(elementIndex: nat, node: nat)

  /**
   * `serialize(encoder, Unit)`: each descriptor element in index order, with
   * the first node named like it; the first element without a node stops
   * the encoding with an error, after the elements before it were written.
   */
  method Serialize(nodes: seq<ValueNode>, descriptor: SerialDescriptor) returns (written: seq<Encoding>, failure: Option<string>)
    ensures failure.None? <==>
              forall i :: 0 <= i < |descriptor.elementNames| ==> FindNodeInstance(nodes, descriptor.elementNames[i]).Some?
    ensures failure.None? ==> |written| == |descriptor.elementNames|
    ensures failure.Some? ==>
              && |written| < |descriptor.elementNames|
              && FindNodeInstance(nodes, descriptor.elementNames[|written|]).None?
              && failure.value == CannotFindMessage(descriptor.elementNames[|written|])
    ensures forall i :: 0 <= i < |written| ==>
              FindNodeInstance(nodes, descriptor.elementNames[i]).Some? &&
              written[i] == Encoding(i, FindNodeInstance(nodes, descriptor.elementNames[i]).value)
  {
    var names := descriptor.elementNames;
    written := [];
    var index := 0;
    while index < |names|
      invariant 0 <= index <= |names| && |written| == index
      invariant forall i :: 0 <= i < index ==>
                  FindNodeInstance(nodes, names[i]).Some? && written[i] == Encoding(i, FindNodeInstance(nodes, names[i]).value)
    {
      var node := FindNodeInstance(nodes, names[index]);
      if node.None? {
        return written, Some(CannotFindMessage(names[index]));
      }
      written := written + [Encoding(index, node.value)];
      index := index + 1;
    }
    failure := None;
  }

  /**
   * The descriptor is computed once, lazily, from the nodes present then;
   * the nodes present at any later time include those. For every element of
   * such a descriptor a node is found, and the same node as on the first
   * lookup, so "Cannot find a serializer" cannot happen.
   */
  lemma {:induction false} LaterNodesCoverDescriptor(saveName: string, nodes: seq<ValueNode>, more: seq<ValueNode>, i: nat)
    requires i < |nodes|
    ensures var d := DescriptorOf(saveName, nodes);
            && FindNodeInstance(nodes + more, d.elementNames[i]).Some?
            && FindNodeInstance(nodes + more, d.elementNames[i]) == FindNodeInstance(nodes, d.elementNames[i])
  {
    var d := DescriptorOf(saveName, nodes);
    assert FindNodeInstance(nodes, d.elementNames[i]).Some? by {
      assert nodes[i].valueName == d.elementNames[i];
    }
    FindNodeInstanceExtended(nodes, more, d.elementNames[i]);
  }

  /** Every element of the descriptor of a prefix of the nodes has a node among all of them. */
  lemma PrefixDescriptorCovered(saveName: string, nodes: seq<ValueNode>, n: nat)
    requires n <= |nodes|
    ensures var d := DescriptorOf(saveName, nodes[..n]);
            forall i :: 0 <= i < |d.elementNames| ==> FindNodeInstance(nodes, d.elementNames[i]).Some?
  {
    var d := DescriptorOf(saveName, nodes[..n]);
    assert nodes[..n] + nodes[n..] == nodes;
    forall i | 0 <= i < |d.elementNames|
      ensures FindNodeInstance(nodes, d.elementNames[i]).Some?
    {
      LaterNodesCoverDescriptor(saveName, nodes[..n], nodes[n..], i);
    }
  }

  /**
   * A plugin data object: its save name, its value nodes (in declaration
   * order), and its `descriptor`, computed on first use.
   */
  class PluginDataImpl {
    const saveName: string
    var valueNodes: seq<ValueNode>
    var cachedDescriptor: Option<SerialDescriptor>

    /** The cached descriptor, once computed, is that of a prefix of the nodes, whose names are distinct. */
    ghost predicate Valid()
      reads this
    {
      cachedDescriptor.Some? ==>
        !Text.IsBlank(saveName) &&
        exists n :: 0 <= n <= |valueNodes| && DistinctNames(valueNodes[..n]) &&
                    cachedDescriptor.value == DescriptorOf(saveName, valueNodes[..n])
    }

    constructor (saveName: string, valueNodes: seq<ValueNode>)
      ensures Valid() && this.saveName == saveName && this.valueNodes == valueNodes && cachedDescriptor == None
    {
      this.saveName := saveName;
      this.valueNodes := valueNodes;
      cachedDescriptor := None;
    }

    /** A node registered by a property delegate: the descriptor, once computed, is not rebuilt. */
    method AddValueNode(node: ValueNode)
      requires Valid()
      modifies this
      ensures Valid()
      ensures valueNodes == old(valueNodes) + [node] && cachedDescriptor == old(cachedDescriptor)
    {
      if cachedDescriptor.Some? {
        var n :| 0 <= n <= |valueNodes| && DistinctNames(valueNodes[..n]) &&
                 cachedDescriptor.value == DescriptorOf(saveName, valueNodes[..n]);
        assert (valueNodes + [node])[..n] == valueNodes[..n];
      }
      valueNodes := valueNodes + [node];
    }

    /**
     * The lazy `descriptor`: built from the current nodes on first use, the
     * same value afterwards. A build that fails, on a blank save name or a
     * repeated name, leaves it uncomputed (a `lazy` initializer that throws
     * is run again on the next use).
     */
    method Descriptor() returns (r: Result<SerialDescriptor, DescriptorError>)
      requires Valid()
      modifies this
      ensures Valid() && valueNodes == old(valueNodes)
      ensures old(cachedDescriptor).Some? ==> r == Ok(old(cachedDescriptor).value) && cachedDescriptor == old(cachedDescriptor)
      ensures old(cachedDescriptor).None? && !Text.IsBlank(saveName) && DistinctNames(valueNodes) ==>
                r == Ok(DescriptorOf(saveName, valueNodes)) && cachedDescriptor == Some(r.value)
      ensures old(cachedDescriptor).None? && (Text.IsBlank(saveName) || !DistinctNames(valueNodes)) ==>
                r == Err(BuildError(saveName, valueNodes)) && cachedDescriptor == None
    {
      if cachedDescriptor.None? {
        r := BuildDescriptor(saveName, valueNodes);
        if r.Ok? {
          assert valueNodes[..|valueNodes|] == valueNodes;
          cachedDescriptor := Some(r.value);
        }
      } else {
        r := Ok(cachedDescriptor.value);
      }
    }

    /**
     * `serialize`: it fails only when the descriptor cannot be built; with
     * the descriptor of this object every element is written with its node,
     * and "Cannot find a serializer" cannot happen.
     */
    method SerializeAll() returns (r: Result<seq<Encoding>, DescriptorError>)
      requires Valid()
      modifies this
      ensures Valid() && valueNodes == old(valueNodes)
      ensures r.Err? <==> old(cachedDescriptor).None? && (Text.IsBlank(saveName) || !DistinctNames(valueNodes))
      ensures r.Err? ==> r.error == BuildError(saveName, valueNodes) && cachedDescriptor == None
      ensures r.Ok? ==> && cachedDescriptor.Some?
                        && |r.value| == |cachedDescriptor.value.elementNames|
                        && forall i :: 0 <= i < |r.value| ==>
                             r.value[i] == Encoding(i, FindNodeInstance(valueNodes, cachedDescriptor.value.elementNames[i]).value)
    {
      var d := Descriptor();
      if d.Err? {
        return Err(d.error);
      }
      var n :| 0 <= n <= |valueNodes| && DistinctNames(valueNodes[..n]) && d.value == DescriptorOf(saveName, valueNodes[..n]);
      PrefixDescriptorCovered(saveName, valueNodes, n);
      var written, failure := Serialize(valueNodes, d.value);
      r := Ok(written);
    }
  }
}
