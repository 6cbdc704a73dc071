/**
 * The append-only text buffer of src/StringBuilder.ts (and of the root-level
 * StringBuilder.ts, which has the same behaviour under lower-case names).
 */
module Buffer {
  import opened Strings

  class StringBuilder {
    /** The fragments, in the order they were appended (`_strings`). */
    var parts: seq<string>

    /** `initialString` absent is modelled as "": both are falsy and give an empty buffer. */
    constructor (initialString: string)
      ensures parts == if initialString == "" then [] else [initialString]
      ensures ToString() == initialString
    {
      parts := if initialString == "" then [] else [initialString];
      assert Concat([initialString]) == initialString + Concat([]);
    }

    /** The text: every fragment in append order, with no separator. */
    function ToString(): string
      reads this
    {
      Concat(parts)
    }

    /** The `Length` getter: the length of the text, which is the sum of the fragments' lengths. */
    function Length(): (n: nat)
      reads this
      ensures n == TotalLength(parts)
    {
      ConcatLength(parts);
      |ToString()|
    }

    method Append(text: string) returns (self: StringBuilder)
      modifies this
      ensures self == this
      ensures parts == old(parts) + [text]
      ensures ToString() == old(ToString()) + text
      ensures old(ToString()) <= ToString()
      ensures Length() == old(Length()) + |text|
    {
      ConcatAppend(parts, [text]);
      parts := parts + [text];
      self := this;
    }

    method AppendLine(text: string := "") returns (self: StringBuilder)
      modifies this
      ensures self == this
      ensures parts == old(parts) + [text + "\n"]
      ensures ToString() == old(ToString()) + text + "\n"
      ensures old(ToString()) <= ToString()
      ensures Length() == old(Length()) + |text| + 1
    {
      ConcatAppend(parts, [text + "\n"]);
      parts := parts + [text + "\n"];
      self := this;
    }

    method Clear()
      modifies this
      ensures parts == []
      ensures ToString() == "" && Length() == 0
    {
      parts := [];
    }
  }
}
