/** The Markdown helpers of the snapshot tests: a test file holds the
    JavaScript input and the expected output in fenced code blocks
    "```<annotation>\n ... ```". Rust strings are UTF-8, so text here is a
    sequence of bytes and positions are byte offsets, as `str::find` and
    string slicing use them. */
module Snapshot {
  import opened Wrappers

  newtype Byte = b: int | 0 <= b < 0x100

  type Text = seq<Byte>

  const Backtick: Byte := 0x60
  const Newline: Byte := 0x0A

  /** `BLOCK_DELIMITER`. */
  const Delimiter: Text := [Backtick, Backtick, Backtick]

  /** The opening marker of a block: the delimiter, the annotation and a
      line break. */
  function BlockStart(annotation: Text): (r: Text)
    ensures |r| == |annotation| + 4 && r[..3] == Delimiter && r[|r| - 1] == Newline
  {
    Delimiter + annotation + [Newline]
  }

  // ---------------------------------------------------------------------
  // Searching

  predicate OccursAt(s: Text, pattern: Text, k: nat) {
    k + |pattern| <= |s| && s[k..k + |pattern|] == pattern
  }

  /** `pattern` occurs nowhere in `s`. */
  predicate Free(s: Text, pattern: Text) {
    forall k: nat | k <= |s| :: !OccursAt(s, pattern, k)
  }

  /** The first occurrence of `pattern` at or after `k`. */
  function FindFrom(s: Text, pattern: Text, k: nat): (r: Option<nat>)
    ensures r.Some? ==> k <= r.value && OccursAt(s, pattern, r.value)
                        && forall m: nat :: k <= m < r.value ==> !OccursAt(s, pattern, m)
    ensures r.None? ==> forall m: nat :: k <= m ==> !OccursAt(s, pattern, m)
    decreases |s| - k
  {
    if k + |pattern| > |s| then None
    else if OccursAt(s, pattern, k) then Some(k)
    else FindFrom(s, pattern, k + 1)
  }

  /** `str::find`: the byte offset of the first occurrence. */
  function Find(s: Text, pattern: Text): (r: Option<nat>)
    ensures r.Some? ==> OccursAt(s, pattern, r.value)
                        && forall m: nat :: m < r.value ==> !OccursAt(s, pattern, m)
    ensures r.None? ==> Free(s, pattern)
  {
    FindFrom(s, pattern, 0)
  }

  /** An occurrence inside `s[lo..hi]` is an occurrence in `s`, shifted by
      `lo`, and the other way round when it fits before `hi`. */
  lemma OccursInSlice(s: Text, pattern: Text, lo: nat, hi: nat, k: nat)
    requires lo <= hi <= |s|
    ensures OccursAt(s[lo..hi], pattern, k) <==> lo + k + |pattern| <= hi && OccursAt(s, pattern, lo + k)
  {
    if lo + k + |pattern| <= hi {
      var inner := s[lo..hi][k..k + |pattern|];
      var outer := s[lo + k..lo + k + |pattern|];
      assert |inner| == |outer|;
      forall j | 0 <= j < |inner| ensures inner[j] == outer[j] {
        assert inner[j] == s[lo + k + j];
      }
      assert inner == outer;
    }
  }

  /** Nothing before the first occurrence of `pattern` holds it. */
  lemma PrefixBeforeFirstIsFree(s: Text, pattern: Text, end: nat)
    requires end <= |s| && |pattern| > 0
    requires forall m: nat :: m < end ==> !OccursAt(s, pattern, m)
    ensures Free(s[0..end], pattern)
  {
    forall k: nat | k <= end
      ensures !OccursAt(s[0..end], pattern, k)
    {
      OccursInSlice(s, pattern, 0, end, k);
    }
  }

  // ---------------------------------------------------------------------
  // UTF-8

  predicate IsContinuation(b: Byte) {
    0x80 <= b < 0xC0
  }

  /** `str::is_char_boundary`: the ends of the text, and every offset
      whose byte does not continue a multi-byte character. */
  predicate IsCharBoundary(s: Text, k: nat) {
    k == 0 || k == |s| || (k < |s| && !IsContinuation(s[k]))
  }

  /** A shape every UTF-8 text has: it does not start with a continuation
      byte, and no continuation byte follows an ASCII byte. */
  predicate Utf8Shaped(s: Text) {
    (|s| > 0 ==> !IsContinuation(s[0]))
    && forall k :: 0 < k < |s| ==> (IsContinuation(s[k]) ==> 0x80 <= s[k - 1])
  }

  // ---------------------------------------------------------------------
  // Extracting and generating blocks

  /** The text from `data` up to the next delimiter, if one follows. */
  function BlockAt(source: Text, data: nat): (r: Option<Text>)
    requires data <= |source|
    ensures r.None? ==> forall k: nat :: data <= k ==> !OccursAt(source, Delimiter, k)
    ensures r.Some? ==> Free(r.value, Delimiter)
                        && data + |r.value| <= |source| && source[data..data + |r.value|] == r.value
                        && OccursAt(source, Delimiter, data + |r.value|)
  {
    match Find(source[data..], Delimiter)
    case None =>
      assert forall k: nat :: data <= k ==> !OccursAt(source, Delimiter, k) by {
        forall k: nat | data <= k ensures !OccursAt(source, Delimiter, k) {
          assert source[data..] == source[data..|source|];
          OccursInSlice(source, Delimiter, data, |source|, k - data);
          if k - data <= |source[data..]| {
            assert !OccursAt(source[data..], Delimiter, k - data);
          }
        }
      }
      None
    case Some(end) =>
      var block := source[data..end + data];
      assert block == source[data..][0..end];
      PrefixBeforeFirstIsFree(source[data..], Delimiter, end);
      OccursInSlice(source, Delimiter, data, |source|, end);
      Some(block)
  }

  /** `get_code_block`: the text between the first opening marker for
      `annotation` and the next delimiter. There is no block when the
      marker is missing, when it neither starts the text nor follows a
      line break, or when no delimiter closes it. The marker test compares
      the byte before the marker with a line break. */
  function GetCodeBlock(source: Text, annotation: Text): (r: Option<Text>)
    ensures Find(source, BlockStart(annotation)).None? ==> r.None?
    ensures var found := Find(source, BlockStart(annotation));
            found.Some? && found.value > 0 && source[found.value - 1] != Newline ==> r.None?
    ensures r.Some? ==>
              var m := Find(source, BlockStart(annotation)).value;
              (m == 0 || source[m - 1] == Newline) && r == BlockAt(source, m + |BlockStart(annotation)|)
    ensures r.Some? ==> Free(r.value, Delimiter)
  {
    var blockStart := BlockStart(annotation);
    match Find(source, blockStart)
    case None => None
    case Some(start) =>
      if start != 0 && source[start - 1] != Newline then None
      else BlockAt(source, start + |blockStart|)
  }

  /** The outcome of `get_code_block` as written: its value, or a panic. */
  datatype Outcome = Value(block: Option<Text>) | Panic

  /** `get_code_block` as written: the byte before the marker is taken as
      the string slice `source[start - 1..start]`, and slicing a string
      panics unless both ends are character boundaries. The same holds of
      the slices that follow. Where it does not panic, it gives what
      `GetCodeBlock` gives. */
  function GetCodeBlockAsWritten(source: Text, annotation: Text): (r: Outcome)
    ensures r.Value? ==> r.block == GetCodeBlock(source, annotation)
  {
    var blockStart := BlockStart(annotation);
    match Find(source, blockStart)
    case None => Value(None)
    case Some(start) =>
      if start != 0 && !IsCharBoundary(source, start - 1) then Panic
      else if start != 0 && source[start - 1..start] != [Newline] then
        assert source[start - 1..start] == [source[start - 1]];
        Value(None)
      else
        var data := start + |blockStart|;
        assert GetCodeBlock(source, annotation) == BlockAt(source, data);
        if !IsCharBoundary(source, data) then Panic
        else match BlockAt(source, data)
        case None => Value(None)
        case Some(block) =>
          if !IsCharBoundary(source, data + |block|) then Panic
          else Value(Some(block))
  }

  /** On UTF-8 text, `get_code_block` as written panics exactly when the
      marker it finds follows a byte that continues a multi-byte
      character, that is, when a non-ASCII character directly precedes
      the marker. */
  lemma {:induction false} AsWrittenPanicsAfterMultibyte(source: Text, annotation: Text)
    requires Utf8Shaped(source)
    ensures var found := Find(source, BlockStart(annotation));
            GetCodeBlockAsWritten(source, annotation).Panic? <==>
              found.Some? && found.value > 0 && IsContinuation(source[found.value - 1])
  {
    var blockStart := BlockStart(annotation);
    var found := Find(source, blockStart);
    if found.Some? {
      var start := found.value;
      var data := start + |blockStart|;
      assert source[data - 1] == blockStart[|blockStart| - 1] == Newline;
      assert IsCharBoundary(source, data);
      var block := BlockAt(source, data);
      if block.Some? {
        assert source[data + |block.value|] == Delimiter[0] == Backtick;
      }
    }
  }

  /** "é```js\n```": a two-byte character right before the marker. */
  const MultibyteExample: Text :=
    [0xC3, 0xA9, Backtick, Backtick, Backtick, 0x6A, 0x73, Newline, Backtick, Backtick, Backtick]

  /** The text above is UTF-8 and makes `get_code_block` as written panic
      instead of reporting that there is no block. */
  lemma MultibyteBeforeMarkerPanics()
    ensures Utf8Shaped(MultibyteExample)
    ensures GetCodeBlockAsWritten(MultibyteExample, [0x6A, 0x73]) == Panic
    ensures GetCodeBlock(MultibyteExample, [0x6A, 0x73]).None?
  {
    var s := MultibyteExample;
    var blockStart := BlockStart([0x6A, 0x73]);
    assert !OccursAt(s, blockStart, 0) by { assert s[0] != blockStart[0]; }
    assert !OccursAt(s, blockStart, 1) by { assert s[1] != blockStart[0]; }
    assert OccursAt(s, blockStart, 2) by { assert s[2..8] == blockStart; }
    assert Find(s, blockStart) == Some(2);
    AsWrittenPanicsAfterMultibyte(s, [0x6A, 0x73]);
  }

  /** `generate_code_block`: the data fenced by an opening marker for the
      annotation and a closing delimiter, each on its own line. */
  function GenerateCodeBlock(data: Text, annotation: Text): (r: Text)
    ensures |r| == |annotation| + |data| + 9
  {
    BlockStart(annotation) + data + [Newline] + Delimiter + [Newline]
  }

  /** The first delimiter after delimiter-free data and a line break is
      the one that follows them. */
  lemma {:induction false} ClosingDelimiterAfterData(data: Text)
    requires Free(data, Delimiter)
    ensures Find(data + [Newline] + Delimiter + [Newline], Delimiter) == Some(|data| + 1)
  {
    var tail := data + [Newline] + Delimiter + [Newline];
    var end := |data| + 1;
    assert OccursAt(tail, Delimiter, end) by { assert tail[end..end + 3] == Delimiter; }
    forall m: nat | m < end
      ensures !OccursAt(tail, Delimiter, m)
    {
      if m + 3 <= |data| {
        assert tail[m..m + 3] == data[m..m + 3];
        assert !OccursAt(data, Delimiter, m);
      } else if m + 3 <= |tail| {
        assert tail[m..m + 3][|data| - m] == tail[|data|] == Newline;
      }
    }
  }

  /** A generated block reads back as its data plus the line break before
      the closing delimiter, for data that holds no delimiter of its own. */
  lemma {:induction false} CodeBlockRoundTrip(data: Text, annotation: Text)
    requires Free(data, Delimiter)
    ensures GetCodeBlock(GenerateCodeBlock(data, annotation), annotation) == Some(data + [Newline])
  {
    var blockStart := BlockStart(annotation);
    var g := GenerateCodeBlock(data, annotation);
    assert OccursAt(g, blockStart, 0) by { assert g[0..|blockStart|] == blockStart; }
    assert Find(g, blockStart) == Some(0);
    var tail := data + [Newline] + Delimiter + [Newline];
    assert g[|blockStart|..] == tail;
    ClosingDelimiterAfterData(data);
    assert g[|blockStart|..|data| + 1 + |blockStart|] == data + [Newline];
  }
}
