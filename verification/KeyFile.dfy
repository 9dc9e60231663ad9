/** The key-cache file (mferstate/overlaystatedb.go, resetScratchPad): one line of hex digits, the
    account and the slot, for every storage slot the root has cached. */
module KeyFile {
  import opened Words
  import opened Sequences
  import opened Keys

  function Digit(n: nat): char
    requires n < 16
  {
    "0123456789abcdef"[n]
  }

  function FromDigit(c: char): Option<nat> {
    if '0' <= c <= '9' then Some(c as int - '0' as int)
    else if 'a' <= c <= 'f' then Some(c as int - 'a' as int + 10)
    else if 'A' <= c <= 'F' then Some(c as int - 'A' as int + 10)
    else None
  }

  /** common.Bytes2Hex. */
  function HexEncode(b: Bytes): string {
    if b == [] then "" else [Digit(b[0] / 16), Digit(b[0] % 16)] + HexEncode(b[1..])
  }

  /** common.Hex2Bytes: what was decoded before the first bad digit; the error is dropped. */
  function HexDecode(s: string): Bytes {
    if |s| < 2 || FromDigit(s[0]).None? || FromDigit(s[1]).None? then []
    else
      var hi, lo := FromDigit(s[0]).value, FromDigit(s[1]).value;
      if hi < 16 && lo < 16 then [16 * hi + lo] + HexDecode(s[2..]) else []
  }

  function DropCR(s: string): string {
    if s != "" && s[|s| - 1] == '\r' then s[..|s| - 1] else s
  }

  /** bufio.ScanLines: `line` is what has been read of the current line. */
  function Scan(line: string, rest: string): seq<string>
    decreases |rest|
  {
    if rest == "" then (if line == "" then [] else [DropCR(line)])
    else if rest[0] == '\n' then [DropCR(line)] + Scan("", rest[1..])
    else Scan(line + [rest[0]], rest[1..])
  }

  function Lines(file: string): seq<string> {
    Scan("", file)
  }

  function Unlines(lines: seq<string>): string {
    if lines == [] then "" else Unlines(lines[..|lines| - 1]) + lines[|lines| - 1] + "\n"
  }

  function HexLines(slots: seq<Bytes>): (lines: seq<string>)
    ensures |lines| == |slots|
    ensures forall i :: 0 <= i < |slots| ==> lines[i] == HexEncode(slots[i])
  {
    seq(|slots|, i requires 0 <= i < |slots| => HexEncode(slots[i]))
  }

  /** The file written for a list of slots, each given as account and slot bytes. */
  function Save(slots: seq<Bytes>): string {
    Unlines(HexLines(slots))
  }

  lemma SaveNothing()
    ensures Save([]) == ""
  {
  }

  lemma SaveSnoc(slots: seq<Bytes>, x: Bytes)
    ensures Save(slots + [x]) == Save(slots) + HexEncode(x) + "\n"
  {
    assert HexLines(slots + [x])[..|slots|] == HexLines(slots);
  }

  /** The scratch-pad keys a file seeds: one for each of the first max lines. */
  function Seeds(file: string, max: nat): seq<Bytes> {
    var lines := Lines(file);
    var n := if |lines| <= max then |lines| else max;
    seq(n, i requires 0 <= i < n => STATE_KEY + HexDecode(lines[i]))
  }

  lemma DigitRoundTrip(n: nat)
    requires n < 16
    ensures FromDigit(Digit(n)) == Some(n) && Digit(n) != '\n' && Digit(n) != '\r'
  {
  }

  lemma {:induction false} HexRoundTrip(b: Bytes)
    ensures HexDecode(HexEncode(b)) == b
    ensures OneLine(HexEncode(b))
  {
    hide FromDigit, Digit;
    if b != [] {
      HexRoundTrip(b[1..]);
      var s := HexEncode(b);
      DigitRoundTrip(b[0] / 16);
      DigitRoundTrip(b[0] % 16);
      assert s[2..] == HexEncode(b[1..]);
    }
  }

  /** Two small digits for each byte. */
  lemma {:induction false} HexDigits(b: Bytes)
    ensures |HexEncode(b)| == 2 * |b|
    ensures forall i :: 0 <= i < |HexEncode(b)| ==> '0' <= HexEncode(b)[i] <= '9' || 'a' <= HexEncode(b)[i] <= 'f'
  {
    if b != [] {
      HexDigits(b[1..]);
      SmallDigit(b[0] / 16);
      SmallDigit(b[0] % 16);
      hide Digit;
    }
  }

  lemma SmallDigit(n: nat)
    requires n < 16
    ensures '0' <= Digit(n) <= '9' || 'a' <= Digit(n) <= 'f'
  {
  }

  /** The digits are these, capitals included, and no other character. */
  lemma DigitCases(c: char)
    ensures FromDigit(c) == None <==> !('0' <= c <= '9' || 'a' <= c <= 'f' || 'A' <= c <= 'F')
    ensures forall n :: 10 <= n < 16 ==> FromDigit("0123456789ABCDEF"[n]) == Some(n)
  {
  }

  /** What follows the first bad digit, or is half a byte, is dropped. */
  lemma {:induction false} DecodeStops(b: Bytes, rest: string)
    requires |rest| < 2 || FromDigit(rest[0]) == None || FromDigit(rest[1]) == None
    ensures HexDecode(HexEncode(b) + rest) == b
    decreases |b|
  {
    hide FromDigit, Digit;
    if b == [] {
      assert HexEncode(b) + rest == rest;
    } else {
      var s := HexEncode(b) + rest;
      DecodeStops(b[1..], rest);
      DigitRoundTrip(b[0] / 16);
      DigitRoundTrip(b[0] % 16);
      assert s[0] == Digit(b[0] / 16) && s[1] == Digit(b[0] % 16);
      assert s[2..] == HexEncode(b[1..]) + rest;
    }
  }

  lemma {:induction false} ScanText(line: string, text: string, rest: string)
    requires forall c :: c in text ==> c != '\n'
    ensures Scan(line, text + rest) == Scan(line + text, rest)
    decreases |text|
  {
    if text == "" {
      assert text + rest == rest && line + text == line;
    } else {
      assert (text + rest)[1..] == text[1..] + rest;
      assert text[0] in text && forall c :: c in text[1..] ==> c in text;
      ScanText(line + [text[0]], text[1..], rest);
      assert line + [text[0]] + text[1..] == line + text;
    }
  }

  lemma ScanLine(text: string, rest: string)
    requires OneLine(text)
    ensures Lines(text + "\n" + rest) == [text] + Lines(rest)
  {
    ScanText("", text, "\n" + rest);
    assert text + "\n" + rest == text + ("\n" + rest);
    assert ("\n" + rest)[1..] == rest;
    assert "" + text == text;
    assert text != "" ==> text[|text| - 1] in text;
  }

  /** A carriage return before the line's end is dropped, and the last line needs no end. */
  lemma LooseLines(text: string, rest: string)
    requires OneLine(text)
    ensures Lines(text + "\r\n" + rest) == [text] + Lines(rest)
    ensures Lines(text) == if text == "" then [] else [text]
  {
    ScanText("", text + "\r", "\n" + rest);
    assert text + "\r\n" + rest == (text + "\r") + ("\n" + rest);
    assert ("\n" + rest)[1..] == rest;
    assert "" + (text + "\r") == text + "\r";
    assert DropCR(text + "\r") == text;
    ScanText("", text, "");
    assert text + "" == text && "" + text == text;
    assert text != "" ==> text[|text| - 1] in text;
  }

  predicate OneLine(text: string) {
    forall c :: c in text ==> c != '\n' && c != '\r'
  }

  lemma {:induction false} LinesOfUnlines(lines: seq<string>, rest: string)
    requires forall i :: 0 <= i < |lines| ==> OneLine(lines[i])
    ensures Lines(Unlines(lines) + rest) == lines + Lines(rest)
    decreases |lines|
  {
    if lines == [] {
      assert Unlines(lines) + rest == rest;
    } else {
      var n := |lines| - 1;
      ScanLine(lines[n], rest);
      LinesOfUnlines(lines[..n], lines[n] + "\n" + rest);
      assert Unlines(lines) + rest == Unlines(lines[..n]) + (lines[n] + "\n" + rest);
    }
  }

  lemma SavedLines(slots: seq<Bytes>)
    ensures Lines(Save(slots)) == HexLines(slots)
  {
    forall i | 0 <= i < |slots| ensures OneLine(HexLines(slots)[i]) {
      HexRoundTrip(slots[i]);
    }
    LinesOfUnlines(HexLines(slots), "");
    assert Save(slots) + "" == Save(slots);
  }

  /** Loaded without a limit, a saved file names the saved slots in their order. */
  lemma LoadAll(slots: seq<Bytes>)
    ensures var seeds := Seeds(Save(slots), |Lines(Save(slots))|);
            |seeds| == |slots| && forall i :: 0 <= i < |slots| ==> seeds[i] == STATE_KEY + slots[i]
  {
    SavedLines(slots);
    forall i | 0 <= i < |slots| ensures HexDecode(HexEncode(slots[i])) == slots[i] {
      HexRoundTrip(slots[i]);
    }
  }

  /** Saving distinct slots and loading the file back seeds exactly min(count, max) of them, each
      under its own scratch-pad key, and all of them when they are no more than max. */
  lemma SaveLoad(slots: seq<Bytes>, max: nat)
    requires forall i, j :: 0 <= i < j < |slots| ==> slots[i] != slots[j]
    ensures var seeds := Seeds(Save(slots), max);
            && |seeds| == (if |slots| <= max then |slots| else max)
            && |set x | x in seeds| == |seeds|
            && (forall x :: x in seeds ==> exists i :: 0 <= i < |slots| && x == STATE_KEY + slots[i])
            && (|slots| <= max ==> forall i :: 0 <= i < |slots| ==> STATE_KEY + slots[i] in seeds)
  {
    var seeds := Seeds(Save(slots), max);
    SavedLines(slots);
    forall i | 0 <= i < |seeds| ensures seeds[i] == STATE_KEY + slots[i] {
      HexRoundTrip(slots[i]);
    }
    forall i, j | 0 <= i < j < |seeds| ensures seeds[i] != seeds[j] {
      assert seeds[i][32..] == slots[i] && seeds[j][32..] == slots[j];
    }
    DistinctCount(seeds);
  }
}
