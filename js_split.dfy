/**
  JavaScript's `String.prototype.split` with a one-character separator, as the
  authorization middleware uses it (`header.split(" ")`): every occurrence of the
  separator cuts the string, so two adjacent separators yield an empty piece and
  a string without the separator yields a single piece (the empty string yields
  `[""]`).
*/
module JsSplit {

  /** True when no piece of `pieces` contains `sep`. */
  predicate SepFree(pieces: seq<string>, sep: char) {
    forall i :: 0 <= i < |pieces| ==> sep !in pieces[i]
  }

  /** Glues the pieces back together with one `sep` between neighbours (`Array.prototype.join`). */
  function Join(pieces: seq<string>, sep: char): (s: string)
    requires |pieces| >= 1
  {
    if |pieces| == 1 then pieces[0] else pieces[0] + [sep] + Join(pieces[1..], sep)
  }

  /** `s.split(sep)`: the maximal separator-free pieces of `s`, in order. */
  function Split(s: string, sep: char): (pieces: seq<string>)
    ensures |pieces| >= 1
    ensures SepFree(pieces, sep)
    ensures Join(pieces, sep) == s
  {
    if s == [] then [[]]
    else
      var rest := Split(s[1..], sep);
      if s[0] == sep then [[]] + rest
      else [[s[0]] + rest[0]] + rest[1..]
  }

  /** Splitting a joined list of separator-free pieces gives the pieces back. */
  lemma {:induction false} SplitJoin(pieces: seq<string>, sep: char)
    requires |pieces| >= 1 && SepFree(pieces, sep)
    ensures Split(Join(pieces, sep), sep) == pieces
  {
    if |pieces| == 1 {
      SplitPiece(pieces[0], sep);
    } else {
      SplitJoin(pieces[1..], sep);
      SplitPrefix(pieces[0], Join(pieces[1..], sep), sep);
      assert pieces == [pieces[0]] + pieces[1..];
    }
  }

  /** A separator-free string splits into itself alone. */
  lemma SplitPiece(w: string, sep: char)
    requires sep !in w
    ensures Split(w, sep) == [w]
  {
  }

  /** A separator-free word followed by the separator becomes the first piece. */
  lemma {:induction false} SplitPrefix(w: string, tail: string, sep: char)
    requires sep !in w
    ensures Split(w + [sep] + tail, sep) == [w] + Split(tail, sep)
  {
    var s := w + [sep] + tail;
    if w == [] {
      assert s == [sep] + tail;
      assert s[1..] == tail;
    } else {
      assert s[0] == w[0] && s[0] != sep;
      assert s[1..] == w[1..] + [sep] + tail;
      SplitPrefix(w[1..], tail, sep);
      var rest := Split(s[1..], sep);
      assert rest == [w[1..]] + Split(tail, sep);
      assert Split(s, sep) == [[s[0]] + rest[0]] + rest[1..];
      assert [w[0]] + w[1..] == w;
    }
  }
}
