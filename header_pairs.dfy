/**
 * The header-pair accumulator: the two parallel arrays `fields_` and
 * `values_` into which the tokenizer's header fragments are concatenated,
 * as pure functions on their contents. The Parser class in HttpParser
 * updates its arrays in place and is specified by these functions.
 */
module HeaderPairs {
  import opened Strings

  /** The contents of `fields_` and `values_`; a slot may hold a null string. */
  datatype Slots = Slots(fields: seq<Option<Str>>, values: seq<Option<Str>>)

  predicate AllSet(s: seq<Option<Str>>)
  {
    forall i :: 0 <= i < |s| ==> s[i].Some?
  }

  /**
   * The accumulator invariant: there is at most one field whose value has
   * not begun, and no slot is left null once its callback has returned.
   */
  predicate Balanced(s: Slots)
    ensures Balanced(s) ==> |s.values| <= |s.fields| <= |s.values| + 1
  {
    (|s.fields| == |s.values| || |s.fields| == |s.values| + 1) &&
    AllSet(s.fields) && AllSet(s.values)
  }

  /** One header line per field whose value has begun, in arrival order. */
  function Lines(s: Slots): (lines: seq<(Str, Str)>)
    requires Balanced(s)
    ensures |lines| == |s.values|
  {
    seq(|s.values|, i requires 0 <= i < |s.values| => (Text(s.fields[i]), Text(s.values[i])))
  }

  /** `onHeaderField`: open a new field slot only when every field has a value, then extend the last field. */
  function AddField(s: Slots, frag: Str): (r: Slots)
    requires Balanced(s)
    ensures Balanced(r) && |r.fields| == |r.values| + 1
    ensures r.values == s.values
    ensures |s.fields| == |s.values| ==> r.fields == s.fields + [Some(frag)]
    ensures |s.fields| == |s.values| + 1 ==>
              r.fields == s.fields[..|s.values|] + [Some(s.fields[|s.values|].value + frag)]
  {
    var fields := if |s.fields| == |s.values| then s.fields + [None] else s.fields;
    var k := |s.values|;
    Slots(fields[k := Some(Update(fields[k], frag))], s.values)
  }

  /** `onHeaderValue`: open a new value slot only when the last field has none yet, then extend the last value. */
  function AddValue(s: Slots, frag: Str): (r: Slots)
    requires Balanced(s) && |s.fields| >= 1
    ensures Balanced(r) && |r.values| == |r.fields|
    ensures r.fields == s.fields
    ensures |s.values| + 1 == |s.fields| ==> r.values == s.values + [Some(frag)]
    ensures |s.values| == |s.fields| ==>
              r.values == s.values[..|s.fields| - 1] + [Some(s.values[|s.fields| - 1].value + frag)]
  {
    var values := if |s.values| != |s.fields| then s.values + [None] else s.values;
    var k := |s.fields| - 1;
    Slots(s.fields, values[k := Some(Update(values[k], frag))])
  }

  /** The slot counts that the `assert`s of both header callbacks demand, whatever the slots hold. */
  predicate Counted(s: Slots)
  {
    |s.fields| == |s.values| || |s.fields| == |s.values| + 1
  }

  /**
   * `onHeaderField` if `getCPtr<String>(k)` yields a copy of the slot rather
   * than the slot itself: the new null slot is added, but the update lands on
   * the copy, so the slot keeps what it held and the fragment is lost.
   */
  function AddFieldAsWritten(s: Slots, frag: Str): (r: Slots)
    requires Counted(s)
    ensures Counted(r) && |r.fields| == |r.values| + 1 && r.values == s.values
    ensures r.fields[..|s.fields|] == s.fields
    ensures r.fields[|s.values|] == (if |s.fields| == |s.values| then None else s.fields[|s.values|])
  {
    if |s.fields| == |s.values| then Slots(s.fields + [None], s.values) else s
  }

  /** `onHeaderValue` under the same reading: a new value slot stays null and the fragment is lost. */
  function AddValueAsWritten(s: Slots, frag: Str): (r: Slots)
    requires Counted(s) && |s.fields| >= 1
    ensures Counted(r) && |r.values| == |r.fields| && r.fields == s.fields
    ensures r.values[..|s.values|] == s.values
    ensures r.values[|s.fields| - 1] == (if |s.values| != |s.fields| then None else s.values[|s.fields| - 1])
  {
    if |s.values| != |s.fields| then Slots(s.fields, s.values + [None]) else s
  }

  /**
   * Under that reading a header name and value leave two null slots, which
   * `onHeadersComplete` would hand on as a null name and value, where the
   * in-place update of AddField and AddValue gives the pair itself.
   */
  lemma SlotUpdateLost(s: Slots, name: Str, value: Str)
    requires Balanced(s) && |s.fields| == |s.values|
    ensures AddValueAsWritten(AddFieldAsWritten(s, name), value) == Slots(s.fields + [None], s.values + [None])
    ensures AddValue(AddField(s, name), value) == Slots(s.fields + [Some(name)], s.values + [Some(value)])
  {
  }

  /** A run of consecutive `onHeaderField` callbacks. */
  function FeedFields(s: Slots, frags: seq<Str>): (r: Slots)
    requires Balanced(s)
    ensures Balanced(r) && r.values == s.values
    ensures frags != [] ==> |r.fields| == |r.values| + 1
    decreases |frags|
  {
    if frags == [] then s
    else AddField(FeedFields(s, frags[..|frags| - 1]), frags[|frags| - 1])
  }

  /** A run of consecutive `onHeaderValue` callbacks. */
  function FeedValues(s: Slots, frags: seq<Str>): (r: Slots)
    requires Balanced(s) && |s.fields| >= 1
    ensures Balanced(r) && r.fields == s.fields
    ensures frags != [] ==> |r.values| == |r.fields|
    decreases |frags|
  {
    if frags == [] then s
    else AddValue(FeedValues(s, frags[..|frags| - 1]), frags[|frags| - 1])
  }

  /** Field fragments arriving when every field has its value make exactly one new field, their concatenation. */
  lemma {:induction false} FieldFragmentsJoin(s: Slots, frags: seq<Str>)
    requires Balanced(s) && |s.fields| == |s.values| && frags != []
    ensures FeedFields(s, frags) == Slots(s.fields + [Some(Concat(frags))], s.values)
  {
    var init, last := frags[..|frags| - 1], frags[|frags| - 1];
    assert frags == init + [last];
    ConcatSnoc(init, last);
    if init == [] {
      assert Concat(frags) == last;
    } else {
      FieldFragmentsJoin(s, init);
      var t := FeedFields(s, init);
      assert t.fields[..|s.values|] == s.fields;
    }
  }

  /** Value fragments following a field make exactly one new value, their concatenation. */
  lemma {:induction false} ValueFragmentsJoin(s: Slots, frags: seq<Str>)
    requires Balanced(s) && |s.fields| == |s.values| + 1 && frags != []
    ensures FeedValues(s, frags) == Slots(s.fields, s.values + [Some(Concat(frags))])
  {
    var init, last := frags[..|frags| - 1], frags[|frags| - 1];
    assert frags == init + [last];
    ConcatSnoc(init, last);
    if init == [] {
      assert Concat(frags) == last;
    } else {
      ValueFragmentsJoin(s, init);
      var t := FeedValues(s, init);
      assert t.values[..|s.fields| - 1] == s.values;
    }
  }

  /**
   * Field fragments f1..fk followed by value fragments v1..vm add exactly one
   * pair (f1++..++fk, v1++..++vm); the earlier pairs are untouched.
   */
  lemma OnePair(s: Slots, fieldFrags: seq<Str>, valueFrags: seq<Str>)
    requires Balanced(s) && |s.fields| == |s.values|
    requires fieldFrags != [] && valueFrags != []
    ensures var r := FeedValues(FeedFields(s, fieldFrags), valueFrags);
            r == Slots(s.fields + [Some(Concat(fieldFrags))], s.values + [Some(Concat(valueFrags))]) &&
            Lines(r) == Lines(s) + [(Concat(fieldFrags), Concat(valueFrags))]
  {
    FieldFragmentsJoin(s, fieldFrags);
    ValueFragmentsJoin(FeedFields(s, fieldFrags), valueFrags);
    var r := FeedValues(FeedFields(s, fieldFrags), valueFrags);
    assert Lines(r) == Lines(s) + [(Concat(fieldFrags), Concat(valueFrags))];
  }

  /** One header line as delivered: the fragments of its name, then those of its value. */
  type FragmentedLine = (seq<Str>, seq<Str>)

  predicate WellFormedBlock(block: seq<FragmentedLine>)
  {
    forall i :: 0 <= i < |block| ==> block[i].0 != [] && block[i].1 != []
  }

  /** The callbacks of a whole header block, line after line. */
  function FeedBlock(s: Slots, block: seq<FragmentedLine>): (r: Slots)
    requires Balanced(s) && |s.fields| == |s.values| && WellFormedBlock(block)
    ensures Balanced(r) && |r.fields| == |r.values|
    decreases |block|
  {
    if block == [] then s
    else
      var t := FeedBlock(s, block[..|block| - 1]);
      var line := block[|block| - 1];
      FeedValues(FeedFields(t, line.0), line.1)
  }

  /** The header lines a block stands for, each name and value joined from its fragments. */
  function Joined(block: seq<FragmentedLine>): (lines: seq<(Str, Str)>)
    ensures |lines| == |block|
    ensures forall i :: 0 <= i < |block| ==> lines[i] == (Concat(block[i].0), Concat(block[i].1))
  {
    if block == [] then []
    else Joined(block[..|block| - 1]) + [(Concat(block[|block| - 1].0), Concat(block[|block| - 1].1))]
  }

  /** Feeding a header block adds exactly its joined lines, in order, after the lines already there. */
  lemma {:induction false} BlockLines(s: Slots, block: seq<FragmentedLine>)
    requires Balanced(s) && |s.fields| == |s.values| && WellFormedBlock(block)
    ensures Lines(FeedBlock(s, block)) == Lines(s) + Joined(block)
    decreases |block|
  {
    if block != [] {
      var init := block[..|block| - 1];
      BlockLines(s, init);
      var line := block[|block| - 1];
      OnePair(FeedBlock(s, init), line.0, line.1);
    }
  }

  /**
   * Fragmentation transparency of the accumulator: however the tokenizer
   * splits the names and values, the header lines that result are the same.
   */
  lemma FragmentationTransparent(s: Slots, b1: seq<FragmentedLine>, b2: seq<FragmentedLine>)
    requires Balanced(s) && |s.fields| == |s.values|
    requires WellFormedBlock(b1) && WellFormedBlock(b2) && Joined(b1) == Joined(b2)
    ensures Lines(FeedBlock(s, b1)) == Lines(FeedBlock(s, b2))
  {
    BlockLines(s, b1);
    BlockLines(s, b2);
  }

  /**
   * The number of header lines `onHeadersComplete` copies, as the
   * `maxHeaderPairs_` guard is evidently meant: a cap of zero means no cap.
   */
  function HeaderLimit(n: nat, maxHeaderPairs: nat): (r: nat)
    ensures r <= n
    ensures maxHeaderPairs == 0 ==> r == n
    ensures maxHeaderPairs > 0 ==> r <= maxHeaderPairs && (r == n || r == maxHeaderPairs)
  {
    if maxHeaderPairs != 0 then (if n < maxHeaderPairs then n else maxHeaderPairs) else n
  }

  /** The guard as written: it caps only when the cap is zero, and then to zero. */
  function HeaderLimitAsWritten(n: nat, maxHeaderPairs: nat): (r: nat)
    ensures maxHeaderPairs == 0 ==> r == 0
    ensures maxHeaderPairs != 0 ==> r == n
  {
    if maxHeaderPairs == 0 then (if n < maxHeaderPairs then n else maxHeaderPairs) else n
  }

  /**
   * As written, an unset cap (zero, the value the constructor gives it)
   * drops every header line, and a set cap is never applied.
   */
  lemma InvertedGuard(n: nat, maxHeaderPairs: nat)
    ensures maxHeaderPairs == 0 ==> HeaderLimitAsWritten(n, maxHeaderPairs) == 0
    ensures maxHeaderPairs != 0 ==> HeaderLimitAsWritten(n, maxHeaderPairs) == n
    ensures n > 0 ==> HeaderLimitAsWritten(n, 0) != HeaderLimit(n, 0)
    ensures n > maxHeaderPairs > 0 ==> HeaderLimitAsWritten(n, maxHeaderPairs) > maxHeaderPairs
  {
  }
}
