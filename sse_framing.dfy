/**
 * The client's event framing: a text buffer is cut at the leftmost match of the
 * blank-line delimiter `\r?\n\r?\n` (a line break is `\n` or `\r\n`), repeatedly.
 */
module SseFraming {
  import opened Values

  /** End of the line break starting at `p` (`\n` or `\r\n`), if there is one. */
  function NewlineEnd(s: string, p: nat): (r: Option<nat>)
    ensures r.Some? ==> p < r.value <= |s| && r.value <= p + 2
  {
    if p < |s| && s[p] == '\n' then Some(p + 1)
    else if p + 1 < |s| && s[p] == '\r' && s[p + 1] == '\n' then Some(p + 2)
    else None
  }

  /** End of the delimiter (two line breaks in a row) starting at `p`, if it matches there. */
  function DelimEnd(s: string, p: nat): (r: Option<nat>)
    ensures r.Some? ==> p + 2 <= r.value <= |s| && r.value <= p + 4
  {
    match NewlineEnd(s, p)
    case None => None
    case Some(m) => NewlineEnd(s, m)
  }

  /** The leftmost delimiter match at or after `from`: its start and end. */
  function FindDelim(s: string, from: nat): (r: Option<(nat, nat)>)
    ensures r.Some? ==> from <= r.value.0 && DelimEnd(s, r.value.0) == Some(r.value.1)
    ensures r.Some? ==> forall j :: from <= j < r.value.0 ==> DelimEnd(s, j).None?
    ensures r.None? ==> forall j :: from <= j ==> DelimEnd(s, j).None?
    decreases |s| - from
  {
    if from >= |s| then None
    else
      match DelimEnd(s, from)
      case Some(e) => Some((from, e))
      case None => FindDelim(s, from + 1)
  }

  /** The leftmost match is determined by where the first match is and that none comes before it. */
  lemma {:induction false} FindDelimUnique(s: string, from: nat, i: nat, e: nat)
    requires from <= i && DelimEnd(s, i) == Some(e)
    requires forall j :: from <= j < i ==> DelimEnd(s, j).None?
    ensures FindDelim(s, from) == Some((i, e))
    decreases i - from
  {
    if from < i {
      FindDelimUnique(s, from + 1, i, e);
    }
  }

  /** A delimiter match found in a prefix is still a match, with the same end, after more text arrives. */
  lemma MatchExtends(b: string, t: string, p: nat)
    requires DelimEnd(b, p).Some?
    ensures DelimEnd(b + t, p) == DelimEnd(b, p)
  {
    var m := NewlineEnd(b, p).value;
    assert NewlineEnd(b + t, p) == Some(m);
    assert NewlineEnd(b + t, m) == NewlineEnd(b, m);
  }

  /** A match that lies entirely in the prefix is a match of the prefix. */
  lemma MatchRestricts(b: string, t: string, p: nat)
    requires DelimEnd(b + t, p).Some? && DelimEnd(b + t, p).value <= |b|
    ensures DelimEnd(b, p) == DelimEnd(b + t, p)
  {
    var m := NewlineEnd(b + t, p).value;
    assert NewlineEnd(b, p) == Some(m);
    assert NewlineEnd(b, m) == NewlineEnd(b + t, m);
  }

  /**
   * No match before the prefix's first match can appear once more text arrives: a
   * match running past the prefix and starting earlier would have to overlap the
   * prefix's match in a way the delimiter's shape rules out.
   */
  lemma NoEarlierMatch(b: string, t: string, j: nat, i: nat)
    requires j < i && DelimEnd(b, i).Some? && DelimEnd(b, j).None?
    ensures DelimEnd(b + t, j).None?
  {
    var s := b + t;
    if DelimEnd(s, j).Some? {
      var e' := DelimEnd(s, j).value;
      if e' <= |b| {
        MatchRestricts(b, t, j);
      } else {
        MatchExtends(b, t, i);
        assert false;
      }
    }
  }

  /** The leftmost match of a buffer stays the leftmost match however the text continues. */
  lemma FirstMatchStable(b: string, t: string)
    requires FindDelim(b, 0).Some?
    ensures FindDelim(b + t, 0) == FindDelim(b, 0)
  {
    var (i, e) := FindDelim(b, 0).value;
    MatchExtends(b, t, i);
    forall j | 0 <= j < i ensures DelimEnd(b + t, j).None? {
      NoEarlierMatch(b, t, j, i);
    }
    FindDelimUnique(b + t, 0, i, e);
  }

  /** A frame cut from the buffer and the delimiter that ended it. */
  datatype Cut = Cut(frame: string, delimiter: string)

  /** The frames a text is cut into, in order, and what remains after the last delimiter. */
  function Frames(s: string): (r: (seq<Cut>, string))
    ensures FindDelim(r.1, 0).None?
    decreases |s|
  {
    match FindDelim(s, 0)
    case None => ([], s)
    case Some((i, e)) =>
      var rest := Frames(s[e..]);
      ([Cut(s[..i], s[i..e])] + rest.0, rest.1)
  }

  /** The text the cuts were taken from. */
  function Rejoin(cuts: seq<Cut>): string
  {
    if cuts == [] then "" else cuts[0].frame + cuts[0].delimiter + Rejoin(cuts[1..])
  }

  /** Frames, their delimiters and the remainder concatenate back to the whole text. */
  lemma {:induction false} FramesRejoin(s: string)
    ensures Rejoin(Frames(s).0) + Frames(s).1 == s
    decreases |s|
  {
    match FindDelim(s, 0)
    case None =>
    case Some((i, e)) =>
      FramesRejoin(s[e..]);
      var cuts := Frames(s).0;
      assert cuts[0] == Cut(s[..i], s[i..e]) && cuts[1..] == Frames(s[e..]).0;
      assert s == s[..i] + s[i..e] + s[e..];
  }

  /** Cutting one frame off a buffer with a match commutes with appending more text. */
  lemma FramesStep(b: string, t: string)
    requires FindDelim(b, 0).Some?
    ensures var (i, e) := FindDelim(b, 0).value;
            Frames(b + t) == ([Cut(b[..i], b[i..e])] + Frames(b[e..] + t).0, Frames(b[e..] + t).1)
  {
    var (i, e) := FindDelim(b, 0).value;
    FirstMatchStable(b, t);
    assert (b + t)[..i] == b[..i] && (b + t)[i..e] == b[i..e] && (b + t)[e..] == b[e..] + t;
  }

  /**
   * Cutting a buffer and then the rest of it followed by more text gives the frames
   * of the whole: what a prefix completes is never re-cut by later text.
   */
  lemma {:induction false} FramesPrefix(b: string, t: string)
    ensures Frames(b + t) == (Frames(b).0 + Frames(Frames(b).1 + t).0, Frames(Frames(b).1 + t).1)
    decreases |b|
  {
    if FindDelim(b, 0).None? {
      assert Frames(b) == ([], b);
      assert [] + Frames(b + t).0 == Frames(b + t).0;
    } else {
      var e := FindDelim(b, 0).value.1;
      FramesPrefix(b[e..], t);
      FramesPrefixStep(b, t);
    }
  }

  /** The inductive step of the above: one cut off the front, then the rest of the buffer. */
  lemma FramesPrefixStep(b: string, t: string)
    requires FindDelim(b, 0).Some?
    requires var e := FindDelim(b, 0).value.1;
             Frames(b[e..] + t) == (Frames(b[e..]).0 + Frames(Frames(b[e..]).1 + t).0, Frames(Frames(b[e..]).1 + t).1)
    ensures Frames(b + t) == (Frames(b).0 + Frames(Frames(b).1 + t).0, Frames(Frames(b).1 + t).1)
  {
    var (i, e) := FindDelim(b, 0).value;
    var c := Cut(b[..i], b[i..e]);
    FramesStep(b, t);
    FramesFirst(b);
    var inner := Frames(b[e..]);
    var y := Frames(inner.1 + t);
    Reassociate(c, inner, y, Frames(b), Frames(b + t));
  }

  /** The frames of a text with a match: the first cut, then the frames of what follows it. */
  lemma FramesFirst(b: string)
    requires FindDelim(b, 0).Some?
    ensures var (i, e) := FindDelim(b, 0).value;
            Frames(b) == ([Cut(b[..i], b[i..e])] + Frames(b[e..]).0, Frames(b[e..]).1)
  {
  }

  lemma Reassociate(c: Cut, inner: (seq<Cut>, string), y: (seq<Cut>, string), fb: (seq<Cut>, string),
                    fbt: (seq<Cut>, string))
    requires fb == ([c] + inner.0, inner.1)
    requires fbt == ([c] + (inner.0 + y.0), y.1)
    ensures fbt == (fb.0 + y.0, y.1)
  {
    assert [c] + (inner.0 + y.0) == ([c] + inner.0) + y.0;
  }
}
