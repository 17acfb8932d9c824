/**
 * Paragraph splitting: a text is cut at every blank-line separator "\n\n",
 * scanning left to right and never reusing a newline, as string splitting
 * on a two-character separator does.
 */
module Paragraphs {
  import opened Wrappers

  /** The paragraph separator. */
  const Separator: string := "\n\n"

  /** A separator starts at position `i` of `s`. */
  predicate BreakAt(s: string, i: int) {
    0 <= i && i + 1 < |s| && s[i] == '\n' && s[i + 1] == '\n'
  }

  /** `s` contains a separator somewhere. */
  predicate HasBreak(s: string) {
    exists i :: 0 <= i < |s| && BreakAt(s, i)
  }

  /** `s` ends with a newline. */
  predicate EndsWithNewline(s: string) {
    |s| > 0 && s[|s| - 1] == '\n'
  }

  /** The pieces glued back together with the separator between neighbours. */
  function Join(ps: seq<string>): (r: string)
    ensures |ps| == 1 ==> r == ps[0]
  {
    if |ps| == 0 then ""
    else if |ps| == 1 then ps[0]
    else ps[0] + Separator + Join(ps[1..])
  }

  /** The leftmost separator at or after position `i`, if any. */
  function FindBreak(s: string, i: nat): (r: Option<nat>)
    requires i <= |s|
    ensures r.Some? ==> i <= r.value && BreakAt(s, r.value)
    ensures r.Some? ==> forall j :: i <= j < r.value ==> !BreakAt(s, j)
    ensures r.None? <==> forall j :: i <= j ==> !BreakAt(s, j)
    decreases |s| - i
  {
    if i + 1 >= |s| then
      assert forall j :: i <= j ==> !BreakAt(s, j);
      None
    else if s[i] == '\n' && s[i + 1] == '\n' then
      assert BreakAt(s, i);
      Some(i)
    else FindBreak(s, i + 1)
  }

  /**
   * The paragraphs of `s`: at least one piece, the pieces join back to `s`,
   * no piece contains a separator, and no piece but the last ends with a
   * newline (a run of three newlines leaves its third one at the start of
   * the following piece).
   */
  function SplitParagraphs(s: string): (r: seq<string>)
    ensures |r| >= 1
    ensures Join(r) == s
    ensures forall k :: 0 <= k < |r| ==> !HasBreak(r[k])
    ensures forall k :: 0 <= k < |r| - 1 ==> !EndsWithNewline(r[k])
    decreases |s|
  {
    match FindBreak(s, 0)
    case None => [s]
    case Some(k) =>
      var head := s[..k];
      var rest := SplitParagraphs(s[k + 2..]);
      assert !HasBreak(head) by {
        forall j | BreakAt(head, j) ensures BreakAt(s, j) { }
      }
      assert !EndsWithNewline(head) by {
        if EndsWithNewline(head) {
          assert BreakAt(s, k - 1);
        }
      }
      assert s == head + Separator + s[k + 2..];
      [head] + rest
  }

  /** Properties that characterise a paragraph split of `s`. */
  predicate IsSplitOf(ps: seq<string>, s: string) {
    && |ps| >= 1
    && Join(ps) == s
    && (forall k :: 0 <= k < |ps| ==> !HasBreak(ps[k]))
    && (forall k :: 0 <= k < |ps| - 1 ==> !EndsWithNewline(ps[k]))
  }

  /**
   * The split is the only decomposition with those properties; in
   * particular splitting the join of such pieces gives the pieces back.
   */
  lemma {:induction false} SplitUnique(ps: seq<string>, s: string)
    requires IsSplitOf(ps, s)
    ensures SplitParagraphs(s) == ps
    decreases |ps|
  {
    if |ps| == 1 {
      assert !HasBreak(s);
      assert FindBreak(s, 0).None?;
    } else {
      var p, tail := ps[0], ps[1..];
      assert s == p + Separator + Join(tail);
      FirstBreakAfter(p, Join(tail));
      assert s[..|p|] == p;
      assert s[|p| + 2..] == Join(tail);
      assert SplitParagraphs(s) == [p] + SplitParagraphs(Join(tail));
      TailIsSplit(ps);
      SplitUnique(tail, Join(tail));
    }
  }

  /**
   * A piece with no separator and no trailing newline, followed by the
   * separator: the leftmost separator is the one right after the piece.
   */
  lemma FirstBreakAfter(p: string, rest: string)
    requires !HasBreak(p) && !EndsWithNewline(p)
    ensures FindBreak(p + Separator + rest, 0) == Some(|p|)
  {
    var s := p + Separator + rest;
    assert BreakAt(s, |p|);
    forall j | 0 <= j < |p| ensures !BreakAt(s, j) {
      if j + 1 < |p| {
        assert s[j] == p[j] && s[j + 1] == p[j + 1];
        assert !BreakAt(p, j);
      } else {
        assert s[j] == p[|p| - 1] != '\n';
      }
    }
  }

  /** Dropping the first piece of a split leaves a split of the rest. */
  lemma TailIsSplit(ps: seq<string>)
    requires |ps| >= 2 && IsSplitOf(ps, Join(ps))
    ensures IsSplitOf(ps[1..], Join(ps[1..]))
  {
    var tail := ps[1..];
    forall k | 0 <= k < |tail| ensures !HasBreak(tail[k]) {
      assert tail[k] == ps[k + 1];
    }
    forall k | 0 <= k < |tail| - 1 ensures !EndsWithNewline(tail[k]) {
      assert tail[k] == ps[k + 1];
    }
  }

  /** Splitting the join of well-formed pieces gives the pieces back. */
  lemma SplitJoin(ps: seq<string>)
    requires |ps| >= 1
    requires forall k :: 0 <= k < |ps| ==> !HasBreak(ps[k])
    requires forall k :: 0 <= k < |ps| - 1 ==> !EndsWithNewline(ps[k])
    ensures SplitParagraphs(Join(ps)) == ps
  {
    SplitUnique(ps, Join(ps));
  }

  /** A text without a separator is a single paragraph. */
  lemma NoBreakOnePiece(s: string)
    ensures SplitParagraphs(s) == [s] <==> !HasBreak(s)
  {
    if !HasBreak(s) {
      SplitUnique([s], s);
    }
  }

  /**
   * Worked cases: a third newline stays with the next paragraph, the empty
   * text is one empty paragraph, and a bare separator gives two.
   */
  lemma ThreeNewlines()
    ensures SplitParagraphs("a\n\n\nb") == ["a", "\nb"]
    ensures SplitParagraphs("") == [""]
    ensures SplitParagraphs("\n\n") == ["", ""]
  {
    SplitJoin(["a", "\nb"]);
    assert Join(["a", "\nb"]) == "a\n\n\nb";
    SplitJoin([""]);
    SplitJoin(["", ""]);
    assert Join(["", ""]) == "\n\n";
  }
}
