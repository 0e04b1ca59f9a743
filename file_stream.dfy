/**
 * The character cursor (FileStream.h, FileStream.cpp). The file is given as its
 * contents; `index` is the read position of the underlying input stream.
 */
module Source {

  /** A character as `FileStream::current` returns it: a character or the EOF marker. */
  datatype Sym = EOF | Ch(c: char)

  datatype LineColumn = LineColumn(line: int, column: int)

  /** The symbol at index `i` of the file. */
  function At(text: seq<char>, i: nat): (s: Sym)
    ensures s.Ch? <==> i < |text|
    ensures s.Ch? ==> s.c == text[i]
  {
    if i < |text| then Ch(text[i]) else EOF
  }

  /** Where one read moves the cursor: reading at end of file stays at end of file. */
  function Step(text: seq<char>, i: nat): (j: nat)
    requires i <= |text|
    ensures j <= |text|
    ensures j == i <==> i == |text|
    ensures j != i ==> j == i + 1
  {
    if i < |text| then i + 1 else i
  }

  /** How reading `s` moves the line/column counter. */
  function Track(p: LineColumn, s: Sym): (r: LineColumn)
    ensures r == p <==> s == EOF
    ensures r.line == p.line + 1 <==> s == Ch('\n')
    ensures r.line == p.line <==> s != Ch('\n')
    ensures s.Ch? && s != Ch('\n') ==> r.column == p.column + 1
    ensures s == Ch('\n') ==> r == LineColumn(p.line + 1, 1)
  {
    if s == EOF then p
    else if s == Ch('\n') then LineColumn(p.line + 1, 1)
    else LineColumn(p.line, p.column + 1)
  }

  /** The counter after the cursor has been advanced to index `i`. */
  function LineColumnAt(text: seq<char>, i: nat): (r: LineColumn)
    requires i <= |text|
    ensures r.line <= i + 1 && r.column <= i + 1
  {
    if i == 0 then LineColumn(1, 1) else Track(LineColumnAt(text, i - 1), At(text, i))
  }

  /** Number of newline characters in `s`. */
  function Newlines(s: seq<char>): nat {
    if s == [] then 0 else Newlines(s[..|s| - 1]) + (if s[|s| - 1] == '\n' then 1 else 0)
  }

  /** Line and column never drop below 1. */
  lemma {:induction false} LineColumnPositive(text: seq<char>, i: nat)
    requires i <= |text|
    ensures LineColumnAt(text, i).line >= 1 && LineColumnAt(text, i).column >= 1
  {
    if i > 0 {
      LineColumnPositive(text, i - 1);
    }
  }

  /**
   * The line of the character at index `i` is one more than the number of
   * newlines read by `next()` so far, i.e. those at indices 1..i; a newline
   * therefore counts as the first character of the line it opens.
   */
  lemma {:induction false} LineCountsNewlines(text: seq<char>, i: nat)
    requires i < |text|
    ensures LineColumnAt(text, i).line == 1 + Newlines(text[1..i + 1])
  {
    if i == 0 {
      assert text[1..1] == [];
    } else {
      LineCountsNewlines(text, i - 1);
      assert text[1..i + 1][..i - 1] == text[1..i];
    }
  }

  class FileStream {
    const text: seq<char>
    var index: nat
    var line: int
    var column: int
    var ch: Sym

    ghost predicate Valid()
      reads this
    {
      index <= |text| &&
      ch == At(text, index) &&
      LineColumn(line, column) == LineColumnAt(text, index)
    }

    /** Loads the first character as current; line and column start at 1. */
    constructor (text: seq<char>)
      ensures Valid()
      ensures this.text == text && index == 0
      ensures line == 1 && column == 1 && ch == At(text, 0)
    {
      this.text := text;
      index := 0;
      line := 1;
      column := 1;
      ch := EOF;
      new;
      ch := At(text, 0);
    }

    /** The character last read, without reading another. */
    function Current(): (s: Sym)
      reads this
      ensures Valid() ==> s == At(text, index)
    {
      ch
    }

    function Line(): (l: int)
      reads this
      ensures Valid() ==> l == LineColumnAt(text, index).line
    {
      line
    }

    function Column(): (c: int)
      reads this
      ensures Valid() ==> c == LineColumnAt(text, index).column
    {
      column
    }

    /**
     * Reads one character and returns it. A newline moves to column 1 of the
     * next line, any other character one column right, and EOF changes nothing.
     */
    method Next() returns (c: Sym)
      requires Valid()
      modifies this
      ensures Valid()
      ensures index == Step(text, old(index))
      ensures c == ch == At(text, index)
      ensures LineColumn(line, column) == Track(old(LineColumn(line, column)), c)
    {
      index := if index < |text| then index + 1 else index;
      ch := At(text, index);
      if ch != EOF {
        if ch == Ch('\n') {
          line := line + 1;
          column := 1;
        } else {
          column := column + 1;
        }
      }
      c := ch;
    }
  }
}
