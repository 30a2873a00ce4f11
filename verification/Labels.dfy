/** Default labels and label selectors (pkg/hcloud/labels.go). */
module Labels {
  import opened Wrappers
  import opened Decimal

  type LabelMap = map<string, string>

  const GENERATED_DATE_TIME := "crossplane.io/generated-at"
  const PROVIDER_LABEL := "crossplane.io/provider"
  const PROVIDER := "provider-hetzner"

  // ---------------------------------------------------------------------------
  // The overlay of default labels and caller labels
  // ---------------------------------------------------------------------------

  function Defaults(now: int): LabelMap {
    map[PROVIDER_LABEL := PROVIDER, GENERATED_DATE_TIME := Itoa(now)]
  }

  /** The defaults name the provider and the time, and the time can be read back. */
  lemma DefaultsMeaning(now: int)
    ensures Defaults(now).Keys == {PROVIDER_LABEL, GENERATED_DATE_TIME}
    ensures Defaults(now)[PROVIDER_LABEL] == PROVIDER
    ensures TakeInt(Defaults(now)[GENERATED_DATE_TIME]) == Int(now, "")
  {
    TakeIntOfItoa(now, "");
    assert Itoa(now) + "" == Itoa(now);
    assert PROVIDER_LABEL[14] != GENERATED_DATE_TIME[14];
  }

  /** Laying maps over `base`, one after the other. */
  function Overlay(base: LabelMap, inputs: seq<LabelMap>): LabelMap
    decreases |inputs|
  {
    if inputs == [] then base else Overlay(base + inputs[0], inputs[1..])
  }

  /** Position of the last input that has `key`, or |inputs| when none has it. */
  function LastHolder(inputs: seq<LabelMap>, key: string): (last: nat)
    ensures last <= |inputs|
    ensures last < |inputs| ==> key in inputs[last]
    ensures forall i | 0 <= i < |inputs| && key in inputs[i] :: i <= last < |inputs|
  {
    if inputs == [] then 0
    else
      var n := |inputs| - 1;
      if key in inputs[n] then n
      else
        var earlier := LastHolder(inputs[..n], key);
        if earlier < n then earlier else n + 1
  }

  lemma {:induction false} OverlayUnfoldsLast(base: LabelMap, inputs: seq<LabelMap>)
    requires inputs != []
    ensures Overlay(base, inputs) == Overlay(base, inputs[..|inputs| - 1]) + inputs[|inputs| - 1]
    decreases |inputs|
  {
    if |inputs| > 1 {
      OverlayUnfoldsLast(base + inputs[0], inputs[1..]);
      assert inputs[1..][..|inputs| - 2] == inputs[..|inputs| - 1][1..];
    }
  }

  /** What an overlay means: every key of the base and of the inputs, and no other; a key takes
      its value from the last input that has it, and from the base when no input has it. */
  lemma {:induction false} OverlayMeaning(base: LabelMap, inputs: seq<LabelMap>, key: string)
    ensures key in Overlay(base, inputs) <==> key in base || exists i :: 0 <= i < |inputs| && key in inputs[i]
    ensures var last := LastHolder(inputs, key);
            last < |inputs| ==> Overlay(base, inputs)[key] == inputs[last][key]
    ensures LastHolder(inputs, key) == |inputs| && key in base ==> Overlay(base, inputs)[key] == base[key]
  {
    if inputs != [] {
      OverlayUnfoldsLast(base, inputs);
      var n := |inputs| - 1;
      OverlayMeaning(base, inputs[..n], key);
      if i :| 0 <= i < |inputs| && key in inputs[i] {
        assert i < n ==> inputs[..n][i] == inputs[i];
      }
    }
  }

  /** Go's map iteration order is arbitrary: each round picks any key that is left. */
  method ApplyDefaultLabels(now: int, inputs: seq<LabelMap>) returns (labels: LabelMap)
    ensures labels == Overlay(Defaults(now), inputs)
  {
    labels := Defaults(now);
    for i := 0 to |inputs|
      invariant Overlay(labels, inputs[i..]) == Overlay(Defaults(now), inputs)
    {
      var input, left := inputs[i], inputs[i].Keys;
      ghost var before := labels;
      while left != {}
        invariant left <= input.Keys
        invariant labels == before + (input - left)
      {
        var k :| k in left;
        labels := labels[k := input[k]];
        left := left - {k};
      }
      assert input - left == input;
      assert inputs[i..][1..] == inputs[i + 1..];
    }
  }

  // ---------------------------------------------------------------------------
  // Label selectors
  // ---------------------------------------------------------------------------

  ghost predicate IsOrderOf(order: seq<string>, labels: LabelMap) {
    && (forall k :: k in order <==> k in labels)
    && (forall i, j | 0 <= i < j < |order| :: order[i] != order[j])
  }

  function Piece(key: string, value: string): string {
    key + "=" + value
  }

  function Pieces(order: seq<string>, labels: LabelMap): (pieces: seq<string>)
    requires forall k | k in order :: k in labels
    ensures |pieces| == |order|
    ensures forall i | 0 <= i < |order| :: pieces[i] == Piece(order[i], labels[order[i]])
  {
    if order == [] then [] else [Piece(order[0], labels[order[0]])] + Pieces(order[1..], labels)
  }

  /** strings.Join with a comma. */
  function Join(parts: seq<string>): string {
    if parts == [] then ""
    else if |parts| == 1 then parts[0]
    else parts[0] + "," + Join(parts[1..])
  }

  /** `text` is a selector that ToSelector may print for `labels`, in some iteration order. */
  ghost predicate IsSelectorOf(text: string, labels: LabelMap) {
    exists order :: IsOrderOf(order, labels) && text == Join(Pieces(order, labels))
  }

  lemma {:induction false} OrderExists(labels: LabelMap) returns (order: seq<string>)
    ensures IsOrderOf(order, labels)
    decreases |labels|
  {
    if labels == map[] {
      order := [];
    } else {
      var k :| k in labels;
      var shorter := OrderExists(labels - {k});
      OrderSnoc(shorter, k, labels - {k}, labels);
      order := shorter + [k];
    }
  }

  method EscapeLabels(labels: LabelMap) returns (escaped: LabelMap)
    ensures escaped == labels
  {
    escaped := map[];
    var left := labels.Keys;
    while left != {}
      invariant left <= labels.Keys
      invariant escaped == labels - left
    {
      var k :| k in left;
      escaped := escaped[k := labels[k]];
      left := left - {k};
    }
  }

  method ToSelector(l: LabelMap) returns (selector: string)
    ensures IsSelectorOf(selector, l)
  {
    var labels: seq<string> := [];
    var escaped := EscapeLabels(l);
    var left := escaped.Keys;
    ghost var order: seq<string> := [];
    while left != {}
      invariant left <= escaped.Keys
      invariant IsOrderOf(order, escaped - left)
      invariant labels == Pieces(order, escaped)
    {
      var k :| k in left;
      labels := labels + [Piece(k, escaped[k])];
      PiecesSnoc(order, k, escaped);
      OrderSnoc(order, k, escaped - left, escaped - (left - {k}));
      order := order + [k];
      left := left - {k};
    }
    assert escaped - left == l;
    selector := Join(labels);
  }

  lemma OrderSnoc(order: seq<string>, k: string, before: LabelMap, after: LabelMap)
    requires IsOrderOf(order, before) && k !in before && after.Keys == before.Keys + {k}
    ensures IsOrderOf(order + [k], after)
  {
    var longer := order + [k];
    forall x
      ensures x in longer <==> x in after
    {
      assert x in longer <==> x in order || x == k;
      assert x in after <==> x in before.Keys + {k};
    }
    forall i, j | 0 <= i < j < |longer|
      ensures longer[i] != longer[j]
    {
      assert order[i] in before;
    }
  }

  lemma {:induction false} PiecesSnoc(order: seq<string>, k: string, labels: LabelMap)
    requires k in labels && forall x | x in order :: x in labels
    ensures Pieces(order + [k], labels) == Pieces(order, labels) + [Piece(k, labels[k])]
  {
  }

  // --- reading a selector back -------------------------------------------------

  /** Position of the first `c` in `s`, or |s| when there is none. */
  function Find(s: string, c: char): (n: nat)
    ensures n <= |s| && c !in s[..n]
    ensures n < |s| ==> s[n] == c
  {
    if s == "" || s[0] == c then 0
    else
      var n := Find(s[1..], c);
      assert s[..1 + n] == [s[0]] + s[1..][..n];
      1 + n
  }

  function Split(s: string): (parts: seq<string>)
    ensures parts != []
    ensures forall i | 0 <= i < |parts| :: ',' !in parts[i]
    decreases |s|
  {
    var n := Find(s, ',');
    if n == |s| then
      assert s[..n] == s;
      [s]
    else
      [s[..n]] + Split(s[n + 1..])
  }

  /** Reads `key=value` pieces, cutting each at its first equals sign; a later key wins. */
  function ReadPieces(pieces: seq<string>): (labels: Option<LabelMap>)
    requires forall i | 0 <= i < |pieces| :: ',' !in pieces[i]
    ensures labels.Some? ==> Unambiguous(labels.value)
  {
    if pieces == [] then Some(map[])
    else
      var last := pieces[|pieces| - 1];
      var n := Find(last, '=');
      var earlier := ReadPieces(pieces[..|pieces| - 1]);
      if n == |last| || earlier == None then None
      else Some(earlier.value[last[..n] := last[n + 1..]])
  }

  /** The meaning of a selector text, read without knowing the map it was printed from. */
  function ParseSelector(text: string): (labels: Option<LabelMap>)
    ensures labels.Some? ==> Unambiguous(labels.value)
  {
    if text == "" then Some(map[]) else ReadPieces(Split(text))
  }

  /** No key holds a comma or an equals sign, and no value holds a comma. */
  ghost predicate Unambiguous(labels: LabelMap) {
    forall k | k in labels :: ',' !in k && '=' !in k && ',' !in labels[k]
  }

  lemma {:induction false} SplitOfJoin(parts: seq<string>)
    requires parts != [] && forall i | 0 <= i < |parts| :: ',' !in parts[i]
    ensures Split(Join(parts)) == parts
  {
    FindOfPrefix(parts[0], ',', if |parts| == 1 then "" else "," + Join(parts[1..]));
    if |parts| == 1 {
      assert parts[0] + "" == parts[0];
    } else {
      var tail := Join(parts[1..]);
      SplitOfJoin(parts[1..]);
      assert parts[0] + "," + tail == parts[0] + ("," + tail) == Join(parts);
      assert Join(parts)[|parts[0]| + 1..] == tail;
      assert Join(parts)[..|parts[0]|] == parts[0];
    }
  }

  lemma {:induction false} FindOfPrefix(front: string, c: char, rest: string)
    requires c !in front && (rest == "" || rest[0] == c)
    ensures Find(front + rest, c) == |front|
  {
    if front == "" {
      assert front + rest == rest;
    } else {
      assert (front + rest)[1..] == front[1..] + rest;
      FindOfPrefix(front[1..], c, rest);
    }
  }

  lemma PiecesHaveNoComma(order: seq<string>, labels: LabelMap)
    requires Unambiguous(labels) && forall k | k in order :: k in labels
    ensures forall i | 0 <= i < |order| :: ',' !in Pieces(order, labels)[i]
  {
  }

  lemma {:induction false} ReadOfPieces(order: seq<string>, labels: LabelMap)
    requires Unambiguous(labels) && forall k | k in order :: k in labels
    requires forall i | 0 <= i < |order| :: ',' !in Pieces(order, labels)[i]
    ensures var read := ReadPieces(Pieces(order, labels));
            && read.Some?
            && (forall k :: k in read.value <==> k in order)
            && (forall k | k in order :: read.value[k] == labels[k])
  {
    if order != [] {
      var n := |order| - 1;
      var k := order[n];
      var pieces := Pieces(order, labels);
      PiecesSnoc(order[..n], k, labels);
      assert order == order[..n] + [k];
      assert pieces[..n] == Pieces(order[..n], labels);
      PiecesHaveNoComma(order[..n], labels);
      ReadOfPieces(order[..n], labels);
      ReadOfPiece(k, labels);
      assert pieces[n] == Piece(k, labels[k]);
      var earlier := ReadPieces(pieces[..n]).value;
      assert ReadPieces(pieces) == Some(earlier[k := labels[k]]);
    }
  }

  lemma ReadOfPiece(k: string, labels: LabelMap)
    requires k in labels && Unambiguous(labels)
    ensures var piece := Piece(k, labels[k]);
            var n := Find(piece, '=');
            n == |k| < |piece| && piece[..n] == k && piece[n + 1..] == labels[k]
  {
    FindOfPrefix(k, '=', "=" + labels[k]);
    assert Piece(k, labels[k]) == k + ("=" + labels[k]);
  }

  lemma ParseOfJoin(pieces: seq<string>)
    requires forall i | 0 <= i < |pieces| :: pieces[i] != "" && ',' !in pieces[i]
    ensures ParseSelector(Join(pieces)) == ReadPieces(pieces)
  {
    if pieces != [] {
      SplitOfJoin(pieces);
      JoinIsLong(pieces);
    }
  }

  lemma SelectorReadsBack(labels: LabelMap, order: seq<string>)
    requires Unambiguous(labels) && IsOrderOf(order, labels)
    ensures ParseSelector(Join(Pieces(order, labels))) == Some(labels)
  {
    PiecesHaveNoComma(order, labels);
    ParseOfJoin(Pieces(order, labels));
    ReadOfPieces(order, labels);
    assert ReadPieces(Pieces(order, labels)).value == labels;
  }

  /** Reading a printed selector gives the labels back exactly when they are unambiguous, whatever
      order the map was ranged over. */
  lemma SelectorRoundTrip(labels: LabelMap, text: string)
    requires IsSelectorOf(text, labels)
    ensures ParseSelector(text) == Some(labels) <==> Unambiguous(labels)
  {
    if Unambiguous(labels) {
      var order :| IsOrderOf(order, labels) && text == Join(Pieces(order, labels));
      SelectorReadsBack(labels, order);
    }
  }

  lemma JoinIsLong(parts: seq<string>)
    requires parts != [] && parts[0] != ""
    ensures Join(parts) != ""
  {
  }

  /** Unambiguous labels with a selector text in common are the same labels. */
  lemma SelectorsTellLabelsApart(a: LabelMap, b: LabelMap, text: string)
    requires Unambiguous(a) && Unambiguous(b)
    requires IsSelectorOf(text, a) && IsSelectorOf(text, b)
    ensures a == b
  {
    SelectorRoundTrip(a, text);
    SelectorRoundTrip(b, text);
  }

  /** Nothing is escaped: a value with a comma prints like two labels. */
  lemma CommaInValueCollides()
    ensures var one := map["a" := "1,b=2"];
            var two := map["a" := "1", "b" := "2"];
            one != two && exists text :: IsSelectorOf(text, one) && IsSelectorOf(text, two)
  {
    var one := map["a" := "1,b=2"];
    var two := map["a" := "1", "b" := "2"];
    assert "a" in two && "b" in two && "b" !in one;
    assert IsOrderOf(["a"], one) && IsOrderOf(["a", "b"], two);
    assert Join(Pieces(["a"], one)) == "a=1,b=2" by {
      assert Piece("a", "1,b=2") == "a=1,b=2";
      assert Pieces(["a"], one) == ["a=1,b=2"];
    }
    assert Join(Pieces(["a", "b"], two)) == "a=1,b=2" by {
      assert Piece("a", "1") == "a=1" && Piece("b", "2") == "b=2";
      assert Pieces(["a", "b"], two) == ["a=1", "b=2"];
      assert Join(["a=1", "b=2"]) == "a=1,b=2";
    }
    assert IsSelectorOf("a=1,b=2", one) && IsSelectorOf("a=1,b=2", two);
  }
}
