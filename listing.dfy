/** The shape every Markdown formatter of the servers shares: one piece of text per
    item, numbered by position, concatenated in order; a piece whose formatting raises
    ends the whole text with that error. */
module Listing {
  import opened Wrappers
  import Text

  /** The pieces `part(i, xs[i])` for i = 0, 1, ... concatenated in order, or the
      error of the first piece that fails. */
  function Concat<T>(xs: seq<T>, part: (nat, T) -> Result<string>): Result<string>
    decreases |xs|
  {
    if xs == [] then Ok("")
    else
      var init := Concat(xs[..|xs| - 1], part);
      var last := part(|xs| - 1, xs[|xs| - 1]);
      if init.Err? then init
      else if last.Err? then last
      else Ok(init.value + last.value)
  }

  /** The whole text exists exactly when every piece does. */
  lemma {:induction false} ConcatOkIff<T>(xs: seq<T>, part: (nat, T) -> Result<string>)
    ensures Concat(xs, part).Ok? <==> forall j :: 0 <= j < |xs| ==> part(j, xs[j]).Ok?
    decreases |xs|
  {
    if xs != [] {
      var init := xs[..|xs| - 1];
      ConcatOkIff(init, part);
      forall j | 0 <= j < |init| ensures init[j] == xs[j] { }
    }
  }

  /** In a text that exists, the pieces of the items before position `i` are
      followed by the piece of the item at `i`: every item has its piece, in order. */
  lemma {:induction false} ConcatInOrder<T>(xs: seq<T>, part: (nat, T) -> Result<string>, i: nat)
    requires i < |xs| && Concat(xs, part).Ok?
    ensures Concat(xs[..i], part).Ok? && part(i, xs[i]).Ok?
    ensures Text.StartsWith(Concat(xs, part).value, Concat(xs[..i], part).value + part(i, xs[i]).value)
    decreases |xs|
  {
    var n := |xs|;
    var init := xs[..n - 1];
    var whole := Concat(xs, part).value;
    var last := part(n - 1, xs[n - 1]);
    assert whole == Concat(init, part).value + last.value;
    if i == n - 1 {
      assert xs[..i] == init;
      assert whole[..|whole|] == whole;
    } else {
      ConcatInOrder(init, part, i);
      assert init[..i] == xs[..i];
      assert init[i] == xs[i];
      Text.StartsWithAppend(Concat(init, part).value, last.value, Concat(xs[..i], part).value + part(i, xs[i]).value);
    }
  }

  /** One more item: its piece is appended, or its error ends the text. */
  lemma ConcatStep<T>(xs: seq<T>, part: (nat, T) -> Result<string>, i: nat)
    requires i < |xs| && Concat(xs[..i], part).Ok?
    ensures var piece := part(i, xs[i]);
      Concat(xs[..i + 1], part) == if piece.Err? then piece else Ok(Concat(xs[..i], part).value + piece.value)
  {
    assert xs[..i + 1][..i] == xs[..i];
  }

  /** An error among the first `j` items is the error of the whole text. */
  lemma {:induction false} ConcatErrorPersists<T>(xs: seq<T>, part: (nat, T) -> Result<string>, j: nat)
    requires j <= |xs| && Concat(xs[..j], part).Err?
    ensures Concat(xs, part) == Concat(xs[..j], part)
    decreases |xs|
  {
    if j < |xs| {
      var init := xs[..|xs| - 1];
      assert init[..j] == xs[..j];
      ConcatErrorPersists(init, part, j);
    } else {
      assert xs[..j] == xs;
    }
  }

  /** The pieces `piece(i, xs[i])` for i = 0, 1, ... concatenated in order, for
      formatters none of whose pieces can fail. */
  function Pieces<T>(xs: seq<T>, piece: (nat, T) -> string): string
    decreases |xs|
  {
    if xs == [] then "" else Pieces(xs[..|xs| - 1], piece) + piece(|xs| - 1, xs[|xs| - 1])
  }

  /** One more item: its piece is appended. */
  lemma PiecesStep<T>(xs: seq<T>, piece: (nat, T) -> string, i: nat)
    requires i < |xs|
    ensures Pieces(xs[..i + 1], piece) == Pieces(xs[..i], piece) + piece(i, xs[i])
  {
    assert xs[..i + 1][..i] == xs[..i];
  }

  /** The pieces of the items before position `i` are followed by the piece of the
      item at `i`: every item has its piece, in order. */
  lemma {:induction false} PiecesInOrder<T>(xs: seq<T>, piece: (nat, T) -> string, i: nat)
    requires i < |xs|
    ensures Text.StartsWith(Pieces(xs, piece), Pieces(xs[..i], piece) + piece(i, xs[i]))
    decreases |xs|
  {
    var n := |xs|;
    var init := xs[..n - 1];
    var whole := Pieces(xs, piece);
    if i == n - 1 {
      assert xs[..i] == init;
      assert whole[..|whole|] == whole;
    } else {
      PiecesInOrder(init, piece, i);
      assert init[..i] == xs[..i];
      assert init[i] == xs[i];
      Text.StartsWithAppend(Pieces(init, piece), piece(n - 1, xs[n - 1]), Pieces(xs[..i], piece) + piece(i, xs[i]));
    }
  }
}
