/** The output stream of the emitter: a growing byte buffer that keeps track of
    the row and column of its end and of an unfinished comment. */
module OutputStream {

  const NEWLINE: bv8 := 10

  /** The number of bytes after the last newline. */
  function ColumnOf(text: seq<bv8>): nat
  {
    if text == [] || text[|text| - 1] == NEWLINE then 0 else 1 + ColumnOf(text[..|text| - 1])
  }

  /** The number of newlines. */
  function RowOf(text: seq<bv8>): nat
  {
    if text == [] then 0
    else RowOf(text[..|text| - 1]) + if text[|text| - 1] == NEWLINE then 1 else 0
  }

  class OStream {
    var bytes: seq<bv8>
    var row: nat
    var col: nat
    var comment: bool

    ghost predicate Valid()
      reads this
    {
      row == RowOf(bytes) && col == ColumnOf(bytes)
    }

    constructor ()
      ensures Valid() && bytes == [] && !comment
    {
      bytes, row, col, comment := [], 0, 0, false;
    }

    method UpdatePos(ch: bv8)
      modifies this`row, this`col, this`comment
      ensures row == old(row) + (if ch == NEWLINE then 1 else 0)
      ensures col == if ch == NEWLINE then 0 else old(col) + 1
      ensures comment == (old(comment) && ch != NEWLINE)
    {
      col := col + 1;
      if ch == NEWLINE {
        row := row + 1;
        col := 0;
        comment := false;
      }
    }

    method Write(str: seq<bv8>)
      requires Valid()
      modifies this
      ensures Valid() && bytes == old(bytes) + str
      ensures comment == (old(comment) && NEWLINE !in str)
    {
      ghost var before := bytes;
      for i := 0 to |str|
        invariant bytes == before + str[..i]
        invariant Valid() && comment == (old(comment) && NEWLINE !in str[..i])
      {
        bytes := bytes + [str[i]];
        UpdatePos(str[i]);
        assert bytes[..|bytes| - 1] == before + str[..i];
        assert str[..i + 1] == str[..i] + [str[i]];
      }
      assert str[..|str|] == str;
    }
  }
}
