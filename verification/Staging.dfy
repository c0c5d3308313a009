/**
  How a head copies a checkpoint between the node's disk and the global store
  (api/p2p/StorageController/fti_controller.cxx): the files of all ranks one after the other
  into one file, and their metadata files, each behind a line with its number of lines.
 */
module Staging {
  import opened Redistribution
  import opened Migration

  const IO_TRANSFER_SIZE := 1024 * 1024

  // ----- checkpoint files --------------------------------------------------

  /** Copies `size` bytes from position `from` on, at most IO_TRANSFER_SIZE at a time. */
  method CopyFile(source: seq<byte>, from: nat, size: nat, written: seq<byte>) returns (target: seq<byte>)
    requires from + size <= |source|
    ensures target == written + source[from..from + size]
  {
    target := written;
    var pos := 0;
    while pos < size
      invariant pos <= size
      invariant target == written + source[from..from + pos]
      decreases size - pos
    {
      var blockSize := IO_TRANSFER_SIZE;
      if size - pos < IO_TRANSFER_SIZE {
        blockSize := size - pos;
      }
      assert source[from..from + pos + blockSize]
          == source[from..from + pos] + source[from + pos..from + pos + blockSize];
      target := target + source[from + pos..from + pos + blockSize];
      pos := pos + blockSize;
    }
  }

  /** What of a file belongs to the state. */
  function Prefixes(files: seq<seq<byte>>, sizes: seq<nat>): (parts: seq<seq<byte>>)
    requires |files| == |sizes| && forall i :: 0 <= i < |files| ==> sizes[i] <= |files[i]|
    ensures HasLayout(parts, sizes)
  {
    seq(|files|, i requires 0 <= i < |files| => files[i][..sizes[i]])
  }

  /** From the node to the global store. */
  method StageL1L2(files: seq<seq<byte>>, sizes: seq<nat>) returns (serialized: seq<byte>)
    requires |files| == |sizes| && forall i :: 0 <= i < |files| ==> sizes[i] <= |files[i]|
    ensures serialized == Flatten(Prefixes(files, sizes))
  {
    serialized := [];
    ghost var parts := Prefixes(files, sizes);
    for i := 0 to |files|
      invariant serialized == Flatten(parts[..i])
    {
      serialized := CopyFile(files[i], 0, sizes[i], serialized);
      assert parts[..i + 1][..i] == parts[..i];
    }
    assert parts[..|files|] == parts;
  }

  lemma FlattenOneMore(files: seq<seq<byte>>, file: seq<byte>)
    ensures Flatten(files + [file]) == Flatten(files) + file
  {
    assert (files + [file])[..|files|] == files;
  }

  /** And back: the file position of the serialized file moves on from rank to rank. */
  method StageL2L1(serialized: seq<byte>, sizes: seq<nat>) returns (files: seq<seq<byte>>)
    requires |serialized| == Total(sizes)
    ensures HasLayout(files, sizes) && Flatten(files) == serialized
  {
    files := [];
    var filePos := 0;
    for i := 0 to |sizes|
      invariant |files| == i && forall k :: 0 <= k < i ==> |files[k]| == sizes[k]
      invariant filePos == Start(sizes, i) <= |serialized|
      invariant Flatten(files) == serialized[..filePos]
    {
      StartMonotone(sizes, i + 1, |sizes|);
      var file := CopyFile(serialized, filePos, sizes[i], []);
      FlattenOneMore(files, file);
      assert serialized[..filePos + sizes[i]] == serialized[..filePos] + serialized[filePos..filePos + sizes[i]];
      files := files + [file];
      filePos := filePos + sizes[i];
    }
    assert serialized[..filePos] == serialized;
  }

  /** Every rank gets its own bytes back. */
  lemma StagingRoundTrip(files: seq<seq<byte>>, back: seq<seq<byte>>, sizes: seq<nat>)
    requires |files| == |sizes| && forall i :: 0 <= i < |files| ==> sizes[i] <= |files[i]|
    requires HasLayout(back, sizes) && Flatten(back) == Flatten(Prefixes(files, sizes))
    ensures forall i :: 0 <= i < |files| ==> back[i] == files[i][..sizes[i]]
  {
    var parts := Prefixes(files, sizes);
    forall i | 0 <= i < |files| ensures back[i] == parts[i] {
      FlattenIndex(back, sizes, i);
      FlattenIndex(parts, sizes, i);
    }
  }

  // ----- metadata files ----------------------------------------------------

  function CountLines(s: string): nat {
    if s == "" then 0 else (if s[0] == '\n' then 1 else 0) + CountLines(s[1..])
  }

  function Digits(n: nat): (s: string)
    ensures |s| > 0 && forall i :: 0 <= i < |s| ==> '0' <= s[i] <= '9'
  {
    if n < 10 then ['0' + n as char] else Digits(n / 10) + ['0' + (n % 10) as char]
  }

  function NumberOf(s: string): nat
    requires forall i :: 0 <= i < |s| ==> '0' <= s[i] <= '9'
  {
    if s == "" then 0 else NumberOf(s[..|s| - 1]) * 10 + (s[|s| - 1] - '0') as nat
  }

  lemma {:induction false} NumberOfDigits(n: nat)
    ensures NumberOf(Digits(n)) == n
  {
    if n < 10 {
      assert Digits(n)[..0] == "";
    } else {
      NumberOfDigits(n / 10);
      assert Digits(n)[..|Digits(n)| - 1] == Digits(n / 10);
    }
  }

  /** The metadata file of the global store. */
  function Framed(metas: seq<string>): string {
    if metas == [] then ""
    else Digits(CountLines(metas[0])) + "\n" + metas[0] + Framed(metas[1..])
  }

  method WriteMetadata(metas: seq<string>) returns (metafs: string)
    ensures metafs == Framed(metas)
  {
    metafs := "";
    for i := 0 to |metas|
      invariant metafs == Framed(metas[..i])
    {
      var countLines := NumberOfLines(metas[i]);
      FramedOneMore(metas[..i], metas[i]);
      assert metas[..i + 1] == metas[..i] + [metas[i]];
      metafs := metafs + (Digits(countLines) + "\n" + metas[i]);
    }
    assert metas[..|metas|] == metas;
  }

  lemma {:induction false} FramedOneMore(metas: seq<string>, meta: string)
    ensures Framed(metas + [meta]) == Framed(metas) + (Digits(CountLines(meta)) + "\n" + meta)
  {
    if metas == [] {
      assert (metas + [meta])[1..] == [];
    } else {
      FramedOneMore(metas[1..], meta);
      assert (metas + [meta])[1..] == metas[1..] + [meta];
    }
  }

  method NumberOfLines(s: string) returns (n: nat)
    ensures n == CountLines(s)
  {
    n := 0;
    for i := 0 to |s|
      invariant n + CountLines(s[i..]) == CountLines(s)
    {
      assert s[i..][1..] == s[i + 1..];
      if s[i] == '\n' {
        n := n + 1;
      }
    }
  }

  /** std::getline: up to the next line end, which is taken off too. */
  function LineLength(s: string): (n: nat)
    ensures n <= |s| && forall i :: 0 <= i < n ==> s[i] != '\n'
    ensures n < |s| ==> s[n] == '\n'
  {
    if s == "" || s[0] == '\n' then 0 else 1 + LineLength(s[1..])
  }

  function AfterLine(s: string): string {
    var n := LineLength(s);
    if n < |s| then s[n + 1..] else ""
  }

  /** Reads so many lines, ending each with a line end again. */
  function Lines(s: string, count: nat): string
    decreases count
  {
    if count == 0 then "" else s[..LineLength(s)] + "\n" + Lines(AfterLine(s), count - 1)
  }

  function AfterLines(s: string, count: nat): string
    decreases count
  {
    if count == 0 then s else AfterLines(AfterLine(s), count - 1)
  }

  predicate EndsWithLineEnd(s: string) {
    s == "" || s[|s| - 1] == '\n'
  }

  lemma {:induction false} FirstLine(line: string, rest: string)
    requires forall i :: 0 <= i < |line| ==> line[i] != '\n'
    ensures LineLength(line + "\n" + rest) == |line|
    ensures AfterLine(line + "\n" + rest) == rest
  {
    if line != "" {
      FirstLine(line[1..], rest);
      assert (line + "\n" + rest)[1..] == line[1..] + "\n" + rest;
    }
  }

  lemma {:induction false} CountOfLine(line: string, rest: string)
    requires forall i :: 0 <= i < |line| ==> line[i] != '\n'
    ensures CountLines(line + "\n" + rest) == 1 + CountLines(rest)
  {
    if line != "" {
      CountOfLine(line[1..], rest);
      assert (line + "\n" + rest)[1..] == line[1..] + "\n" + rest;
    } else {
      assert (line + "\n" + rest)[1..] == rest;
    }
  }

  /** The first line of a text that ends with a line end. */
  lemma SplitLine(text: string) returns (line: string, more: string)
    requires EndsWithLineEnd(text) && text != ""
    ensures text == line + "\n" + more && EndsWithLineEnd(more)
    ensures forall i :: 0 <= i < |line| ==> line[i] != '\n'
  {
    var n := LineLength(text);
    line, more := text[..n], text[n + 1..];
  }

  lemma OneLine(line: string, more: string, count: nat)
    requires forall i :: 0 <= i < |line| ==> line[i] != '\n'
    ensures Lines(line + "\n" + more, count + 1) == line + "\n" + Lines(more, count)
    ensures AfterLines(line + "\n" + more, count + 1) == AfterLines(more, count)
  {
    FirstLine(line, more);
    assert (line + "\n" + more)[..|line|] == line;
  }

  lemma Regroup(a: string, b: string, c: string)
    ensures a + "\n" + b + c == a + "\n" + (b + c)
  {
  }

  ghost predicate AreLines(lines: seq<string>) {
    forall k :: 0 <= k < |lines| ==> IsLine(lines[k])
  }

  ghost predicate IsLine(line: string) {
    forall i :: 0 <= i < |line| ==> line[i] != '\n'
  }

  function Text(lines: seq<string>): string {
    if lines == [] then "" else lines[0] + "\n" + Text(lines[1..])
  }

  lemma LineAndMore(line: string, more: string, rest: string, count: nat)
    requires IsLine(line)
    requires Lines(more + rest, count) == more && AfterLines(more + rest, count) == rest
    ensures Lines(line + "\n" + more + rest, count + 1) == line + "\n" + more
    ensures AfterLines(line + "\n" + more + rest, count + 1) == rest
  {
    Regroup(line, more, rest);
    OneLine(line, more + rest, count);
  }

  /** So many lines make up the text, and the rest follows. */
  ghost predicate Delimits(text: string, rest: string, count: nat) {
    Lines(text + rest, count) == text && AfterLines(text + rest, count) == rest
  }

  lemma {:induction false} LinesOfLines(lines: seq<string>, text: string, rest: string)
    requires AreLines(lines) && text == Text(lines)
    ensures Delimits(text, rest, |lines|)
  {
    if lines == [] {
      assert text + rest == rest;
    } else {
      var more := Text(lines[1..]);
      LinesOfLines(lines[1..], more, rest);
      LineAndMore(lines[0], more, rest, |lines| - 1);
    }
  }

  lemma {:induction false} CountOfLines(lines: seq<string>)
    requires AreLines(lines)
    ensures CountLines(Text(lines)) == |lines|
  {
    if lines != [] {
      CountOfLines(lines[1..]);
      assert IsLine(lines[0]);
      CountOfLine(lines[0], Text(lines[1..]));
    }
  }

  lemma {:induction false} TextHasLines(text: string) returns (lines: seq<string>)
    requires EndsWithLineEnd(text)
    ensures AreLines(lines) && Text(lines) == text
    decreases |text|
  {
    if text == "" {
      lines := [];
    } else {
      var line, more := SplitLine(text);
      var rest := TextHasLines(more);
      lines := [line] + rest;
      assert lines[1..] == rest;
    }
  }

  /** Reading as many lines as a text has gives the text. */
  lemma LinesOfText(text: string, rest: string)
    requires EndsWithLineEnd(text)
    ensures Delimits(text, rest, CountLines(text))
  {
    var lines := TextHasLines(text);
    CountOfLines(lines);
    LinesOfLines(lines, text, rest);
  }

  /** A reader for that format: the metadata that follow, each as long as its count says. */
  function Unframed(s: string, ranks: nat): seq<string>
    decreases ranks
  {
    if ranks == 0 then []
    else
      var header := s[..LineLength(s)];
      if forall i :: 0 <= i < |header| ==> '0' <= header[i] <= '9' then
        [Lines(AfterLine(s), NumberOf(header))] + Unframed(AfterLines(AfterLine(s), NumberOf(header)), ranks - 1)
      else []
  }

  lemma UnframeFirst(header: string, meta: string, rest: string, count: nat, ranks: nat)
    requires forall i :: 0 <= i < |header| ==> '0' <= header[i] <= '9'
    requires NumberOf(header) == count && Delimits(meta, rest, count)
    ensures Unframed(header + "\n" + meta + rest, ranks + 1) == [meta] + Unframed(rest, ranks)
  {
    Regroup(header, meta, rest);
    HeaderAndBody(header, meta + rest);
    UnframeOne(header + "\n" + (meta + rest), header, meta + rest, count, ranks);
  }

  lemma HeaderAndBody(header: string, body: string)
    requires IsLine(header)
    ensures var s := header + "\n" + body; s[..LineLength(s)] == header && AfterLine(s) == body
  {
    FirstLine(header, body);
    assert (header + "\n" + body)[..|header|] == header;
  }

  lemma UnframeOne(s: string, header: string, body: string, count: nat, ranks: nat)
    requires s[..LineLength(s)] == header && AfterLine(s) == body
    requires forall i :: 0 <= i < |header| ==> '0' <= header[i] <= '9'
    requires NumberOf(header) == count
    ensures Unframed(s, ranks + 1) == [Lines(body, count)] + Unframed(AfterLines(body, count), ranks)
  {
  }

  lemma UnframeMeta(meta: string, rest: string, ranks: nat)
    requires EndsWithLineEnd(meta)
    ensures Unframed(Digits(CountLines(meta)) + "\n" + meta + rest, ranks + 1) == [meta] + Unframed(rest, ranks)
  {
    NumberOfDigits(CountLines(meta));
    LinesOfText(meta, rest);
    UnframeFirst(Digits(CountLines(meta)), meta, rest, CountLines(meta), ranks);
  }

  /** The global store keeps the metadata: the counts tell the files apart again. */
  lemma {:induction false} FramingKeepsMetadata(metas: seq<string>)
    requires forall i :: 0 <= i < |metas| ==> EndsWithLineEnd(metas[i])
    ensures Unframed(Framed(metas), |metas|) == metas
  {
    if metas != [] {
      var meta, others := metas[0], metas[1..];
      FramingKeepsMetadata(others);
      UnframeMeta(meta, Framed(others), |others|);
      assert metas == [meta] + others;
    }
  }

  /** But the code closes the stream before it reads from it.  Every line it gets is empty, and the
      counts, which are never set, are arbitrary. */
  function ReadFromClosed(counts: seq<nat>): (metas: seq<string>)
    ensures |metas| == |counts|
  {
    seq(|counts|, i requires 0 <= i < |counts| => Lines("", counts[i]))
  }

  lemma {:induction false} EmptyLines(count: nat)
    ensures Lines("", count) == seq(count, _ => '\n')
  {
    if count > 0 {
      EmptyLines(count - 1);
      var lines: string := seq(count, _ => '\n');
      assert lines == "\n" + lines[1..];
      assert lines[1..] == seq(count - 1, _ => '\n');
    }
  }

  ghost predicate IsBlank(s: string) {
    forall i :: 0 <= i < |s| ==> s[i] == '\n'
  }

  /** So metadata can come back only if they are empty lines. */
  lemma MetadataComeBackBlank(metas: seq<string>)
    ensures (exists counts :: ReadFromClosed(counts) == metas)
            <==> forall i :: 0 <= i < |metas| ==> IsBlank(metas[i])
  {
    if counts :| ReadFromClosed(counts) == metas {
      forall i | 0 <= i < |metas| ensures IsBlank(metas[i]) {
        EmptyLines(counts[i]);
      }
    }
    if forall i :: 0 <= i < |metas| ==> IsBlank(metas[i]) {
      var counts: seq<nat> := seq(|metas|, i requires 0 <= i < |metas| => |metas[i]|);
      forall i | 0 <= i < |metas| ensures ReadFromClosed(counts)[i] == metas[i] {
        EmptyLines(counts[i]);
        assert IsBlank(metas[i]);
      }
      assert ReadFromClosed(counts) == metas;
    }
  }
}
