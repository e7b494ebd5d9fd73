/** Strings, byte buffers and nullable string slots as the parser sees them. */
module Strings {

  /** A value that may be absent; `None` stands for a null pointer (`String::null()`). */
  datatype Option<+T> = None | Some(value: T)

  /** Text after UTF-8 decoding; decoding itself is not modelled. */
  type Str = seq<char>

  /** A body chunk, an opaque run of bytes. */
  type Bytes = seq<bv8>

  /** The characters held by a nullable string slot; a null slot reads as empty. */
  function Text(s: Option<Str>): Str
  {
    if s.Some? then s.value else []
  }

  /**
   * The LIBNODE_STR_UPDATE macro: a null string becomes the fragment itself,
   * any other string gets the fragment appended.
   */
  function Update(s: Option<Str>, frag: Str): (r: Str)
    ensures |r| == |Text(s)| + |frag|
    ensures r[..|Text(s)|] == Text(s) && r[|Text(s)|..] == frag
  {
    if s.None? then frag else s.value + frag
  }

  /** The fragments joined in delivery order. */
  function Concat(frags: seq<Str>): Str
  {
    if frags == [] then [] else Concat(frags[..|frags| - 1]) + frags[|frags| - 1]
  }

  lemma ConcatSnoc(frags: seq<Str>, last: Str)
    ensures Concat(frags + [last]) == Concat(frags) + last
  {
    assert (frags + [last])[..|frags|] == frags;
  }

  /** A run of LIBNODE_STR_UPDATE applications, one per fragment. */
  function Accumulate(s: Option<Str>, frags: seq<Str>): (r: Option<Str>)
    ensures frags == [] ==> r == s
    ensures frags != [] ==> r.Some?
  {
    if frags == [] then s else Some(Update(Accumulate(s, frags[..|frags| - 1]), frags[|frags| - 1]))
  }

  /** However a string arrives in fragments, it accumulates to their concatenation. */
  lemma {:induction false} AccumulateJoins(s: Option<Str>, frags: seq<Str>)
    ensures Text(Accumulate(s, frags)) == Text(s) + Concat(frags)
  {
    if frags != [] {
      var init, last := frags[..|frags| - 1], frags[|frags| - 1];
      AccumulateJoins(s, init);
      assert frags == init + [last];
      ConcatSnoc(init, last);
    }
  }
}
