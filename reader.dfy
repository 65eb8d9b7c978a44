/** The newer character reader of the lexer: a cursor over the characters of
    the input that counts the characters it has moved over and remembers
    whether it has run past the last one. */
module CharReader {
  import opened Wrappers
  import Tokens

  const EndOfFileError: Tokens.LexError := Tokens.LexErrorOf(Tokens.EndOfFile)

  /** The first index at or after `i` whose character fails `check`, or the
      end of the input. */
  function RunEnd(input: seq<char>, i: nat, check: char -> bool): (k: nat)
    requires i <= |input|
    ensures i <= k <= |input|
    ensures forall m :: i <= m < k ==> check(input[m])
    ensures k < |input| ==> !check(input[k])
    decreases |input| - i
  {
    if i < |input| && check(input[i]) then RunEnd(input, i + 1, check) else i
  }

  /** `Reader`: the current character (by index into the input), the
      position and the end-of-file flag. The look-ahead character is
      `input[current + 1]` when there is one. */
  class Reader {
    const input: seq<char>
    var current: nat
    var position: nat
    var endOfFile: bool

    /** The position counts every call of `next` made before the end was
        reached, including the one that reached it; the end-of-file flag is
        only ever set on the last character. */
    ghost predicate Valid()
      reads this
    {
      current < |input|
      && position == current + (if endOfFile then 1 else 0)
      && (endOfFile ==> current == |input| - 1)
    }

    constructor (input: seq<char>)
      requires input != []
      ensures Valid() && this.input == input && current == 0
      ensures position == 0 && !endOfFile
    {
      this.input := input;
      current := 0;
      position := 0;
      endOfFile := false;
    }

    function Eof(): bool
      reads this
    {
      endOfFile
    }

    function Position(): nat
      reads this
    {
      position
    }

    function Current(): char
      reads this
      requires Valid()
    {
      input[current]
    }

    function Peek(): Option<char>
      reads this
      requires Valid()
    {
      if current + 1 < |input| then Some(input[current + 1]) else None
    }

    /** `Reader::next`: the position grows by one unless the end was already
        reached; at the last character the reader sets the end-of-file flag,
        keeps its current character and fails with EndOfFile. */
    method Next() returns (r: Result<char, Tokens.LexError>)
      requires Valid()
      modifies this
      ensures Valid()
      ensures position == old(position) + (if old(endOfFile) then 0 else 1)
      ensures old(current) + 1 < |input| ==>
                current == old(current) + 1 && !endOfFile && r == Ok(input[current])
      ensures old(current) + 1 >= |input| ==>
                current == old(current) && endOfFile && r == Err(EndOfFileError)
    {
      if !endOfFile {
        position := position + 1;
      }
      if current + 1 < |input| {
        current := current + 1;
        r := Ok(input[current]);
      } else {
        endOfFile := true;
        r := Err(EndOfFileError);
      }
    }

    /** `Reader::consume`: fails, changing nothing, once the end has been
        reached; otherwise moves on and succeeds even when that step runs
        past the last character, because the result of `next` is dropped. */
    method Consume() returns (r: Result<(), Tokens.LexError>)
      requires Valid()
      modifies this
      ensures Valid()
      ensures old(endOfFile) ==>
                r == Err(EndOfFileError) && current == old(current)
                && position == old(position) && endOfFile
      ensures !old(endOfFile) ==>
                r == Ok(()) && position == old(position) + 1
                && endOfFile == (old(current) + 1 == |input|)
                && current == (if endOfFile then old(current) else old(current) + 1)
    {
      if endOfFile {
        r := Err(EndOfFileError);
      } else {
        var _ := Next();
        r := Ok(());
      }
    }

    /** `Reader::read_until`: the current character followed by the maximal
        run of following characters that satisfy `check`. The reader stops
        on the first character that fails `check`, or sets the end-of-file
        flag when the input runs out; either way its position is the end of
        the run. The only error `next` raises is EndOfFile, which ends the
        run, so `read_until` always succeeds. */
    method ReadUntil(check: char -> bool) returns (r: Result<string, Tokens.LexError>)
      requires Valid()
      modifies this
      ensures Valid()
      ensures var k := RunEnd(input, old(current) + 1, check);
              r == Ok(input[old(current)..k]) && position == k
              && (k < |input| ==> current == k && !endOfFile)
              && (k == |input| ==> endOfFile)
      ensures r.Ok? && |r.value| >= 1 && r.value[0] == old(input[current])
    {
      ghost var start := current;
      ghost var k := RunEnd(input, start + 1, check);
      var result := [Current()];
      while true
        invariant Valid() && start <= current < k
        invariant result == input[start..current + 1]
        decreases k - current
      {
        var c := Next();
        if c.Ok? {
          if check(c.value) {
            result := result + [c.value];
          } else {
            break;
          }
        } else {
          if c.error.kind != Tokens.EndOfFile {
            assert false;
          }
          break;
        }
      }
      r := Ok(result);
    }
  }

  /** `Reader::new`: fails with EndOfFile on empty input; otherwise starts on
      the first character at position 0 with the end-of-file flag clear. */
  method NewReader(input: seq<char>) returns (r: Result<Reader, Tokens.LexError>)
    ensures input == [] <==> r.Err?
    ensures r.Err? ==> r.error == EndOfFileError
    ensures r.Ok? ==> fresh(r.value) && r.value.Valid() && r.value.input == input
                      && r.value.current == 0 && r.value.position == 0 && !r.value.endOfFile
  {
    if input == [] {
      r := Err(EndOfFileError);
    } else {
      var reader := new Reader(input);
      r := Ok(reader);
    }
  }
}
