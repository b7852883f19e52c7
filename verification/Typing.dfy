/** The line the console collects before it hands it to the command parser. */
module Typing {
  import opened Words
  import opened Text

  const LINE_MAX := 31
  const CR: byte := 13
  const LF: byte := 10
  const BACKSPACE: byte := 8
  const DELETE: byte := 0x7F

  /** The line after one more key, and the command it completed, if any. */
  function Keyed(line: seq<byte>, c: byte): (r: (seq<byte>, Option<seq<byte>>))
  {
    if c == CR || c == LF then
      if line != [] then ([], Some(CStr(line))) else (line, None)
    else if c == BACKSPACE || c == DELETE then
      (if line != [] then line[..|line| - 1] else line, None)
    else if |line| < LINE_MAX then (line + [c], None)
    else (line, None)
  }

  /** The line after a whole input, and the commands completed on the way, in order. */
  function Typed(line: seq<byte>, input: seq<byte>): (r: (seq<byte>, seq<seq<byte>>)) {
    if input == [] then (line, [])
    else
      var (before, commands) := Typed(line, input[..|input| - 1]);
      var (after, done) := Keyed(before, input[|input| - 1]);
      (after, commands + if done.Some? then [done.value] else [])
  }

  predicate Plain(b: byte) {
    b != CR && b != LF && b != BACKSPACE && b != DELETE
  }

  /** Key by key the line stays within the command buffer, and every command is a C string. */
  lemma {:induction false} LineFits(line: seq<byte>, input: seq<byte>)
    requires |line| <= LINE_MAX
    ensures |Typed(line, input).0| <= LINE_MAX
    ensures forall c | c in Typed(line, input).1 :: 0 !in c && |c| <= LINE_MAX
  {
    if input != [] {
      LineFits(line, input[..|input| - 1]);
    }
  }

  lemma PlainKey(line: seq<byte>, c: byte)
    requires Plain(c)
    ensures Keyed(line, c) == (if |line| < LINE_MAX then line + [c] else line, None)
  {
  }

  lemma {:induction false} PlainTyped(text: seq<byte>)
    requires forall b | b in text :: Plain(b)
    ensures Typed([], text) == (text[..Min(|text|, LINE_MAX)], [])
  {
    if text != [] {
      var front, c := text[..|text| - 1], text[|text| - 1];
      PlainTyped(front);
      assert c in text && text == front + [c];
      TypedSnoc([], front, c);
      hide Typed, Keyed, Plain;
      var none: seq<seq<byte>> := [];
      assert none + [] == none;
      var line := front[..Min(|front|, LINE_MAX)];
      PlainKey(line, c);
      assert (if |line| < LINE_MAX then line + [c] else line) == text[..Min(|text|, LINE_MAX)];
    }
  }

  /** A typed text, ended by a return or a line feed, is executed as it was typed exactly when it has at most
      31 characters (and at least one). */
  lemma TypedIff(text: seq<byte>, end: byte)
    requires 0 !in text && forall b | b in text :: Plain(b)
    requires end == 13 || end == 10
    ensures Typed([], text + [end]).1 == [text] <==> 0 < |text| <= LINE_MAX
    ensures Typed([], text + [end]).0 == []
  {
    var line := text[..Min(|text|, LINE_MAX)];
    PlainTyped(text);
    TypedSnoc([], text, end);
    if |text| <= LINE_MAX {
      assert line == text;
    }
    assert Typed([], text + [end]).1 == if line == [] then [] else [CStr(line)];
  }

  lemma TypedSnoc(line: seq<byte>, input: seq<byte>, c: byte)
    ensures Typed(line, input + [c]) ==
            var (before, commands) := Typed(line, input);
            var (after, done) := Keyed(before, c);
            (after, commands + if done.Some? then [done.value] else [])
  {
    assert (input + [c])[..|input|] == input;
  }

  /** Backspace or DEL takes back the last character exactly when that character had found room. */
  lemma EraseIff(line: seq<byte>, c: byte, erase: byte)
    requires |line| <= LINE_MAX && Plain(c)
    requires erase == 8 || erase == 127
    ensures Keyed(Keyed(line, c).0, erase) == (line, None) <==> |line| < LINE_MAX
    ensures Keyed([], erase) == ([], None)
  {
    if |line| < LINE_MAX {
      assert (line + [c])[..|line|] == line;
    }
  }
}
