// Header text: printing "name: value" lines, parsing the lines libcurl delivers, and
// the ordered header block they are collected in.
module HeaderText {
  import opened Basics

  const CRLF: string := "\r\n"
  const COLON: string := ": "

  datatype Header = Header(name: string, value: string)

  // One entry of a SpdyHeaderBlock: a name and the values appended under it.
  datatype Entry = Entry(name: string, values: seq<string>)

  // Entries in order of first insertion.
  type Block = seq<Entry>

  // ---------- text ----------

  function LowerChar(c: char): char {
    if 'A' <= c <= 'Z' then (c as int + 32) as char else c
  }

  function ToLower(s: string): string {
    seq(|s|, i requires 0 <= i < |s| => LowerChar(s[i]))
  }

  // The 26 capital letters become the small ones, and nothing else changes.
  lemma ToLowerIs(s: string, i: nat, k: nat)
    requires i < |s| && k < 26
    ensures |ToLower(s)| == |s|
    ensures s[i] == "ABCDEFGHIJKLMNOPQRSTUVWXYZ"[k] ==> ToLower(s)[i] == "abcdefghijklmnopqrstuvwxyz"[k]
    ensures s[i] !in "ABCDEFGHIJKLMNOPQRSTUVWXYZ" ==> ToLower(s)[i] == s[i]
  {
    var upper, lower := "ABCDEFGHIJKLMNOPQRSTUVWXYZ", "abcdefghijklmnopqrstuvwxyz";
    assert forall m :: 0 <= m < 26 ==> upper[m] as int == 65 + m && lower[m] as int == 97 + m;
    if 'A' <= s[i] <= 'Z' { assert upper[s[i] as int - 65] == s[i]; }
  }

  predicate OccursAt(s: string, pat: string, i: nat) {
    i + |pat| <= |s| && s[i..i + |pat|] == pat
  }

  // The first occurrence of pat in s at or after i.
  function FindFrom(s: string, pat: string, i: nat): (r: Option<nat>)
    requires i <= |s|
    ensures r.Some? ==> OccursAt(s, pat, r.value) && i <= r.value
    ensures r.Some? ==> forall j :: i <= j < r.value ==> !OccursAt(s, pat, j)
    ensures r.None? ==> forall j :: i <= j <= |s| ==> !OccursAt(s, pat, j)
    decreases |s| - i
  {
    if OccursAt(s, pat, i) then Some(i)
    else if i == |s| then None
    else FindFrom(s, pat, i + 1)
  }

  function Find(s: string, pat: string): Option<nat> {
    FindFrom(s, pat, 0)
  }

  lemma AbsentIsNotFound(s: string, c: char)
    requires c !in s
    ensures Find(s, [c]).None?
  {
    forall i: nat | i < |s| ensures !OccursAt(s, [c], i) {
      assert s[i..i + 1][0] == s[i];
    }
  }

  function Substr(s: string, i: nat, n: nat): string
    requires i <= |s|
  {
    s[i..Min(i + n, |s|)]
  }

  predicate HasColonSpace(s: string) {
    exists i :: 0 <= i < |s| - 1 && s[i] == ':' && s[i + 1] == ' '
  }

  lemma ColonSpaceAt(s: string, i: nat)
    ensures OccursAt(s, COLON, i) <==> i + 1 < |s| && s[i] == ':' && s[i + 1] == ' '
  {
    if i + 2 <= |s| { assert s[i..i + 2] == [s[i], s[i + 1]]; }
  }

  lemma ColonSpaceIff(s: string)
    ensures Find(s, COLON).Some? <==> HasColonSpace(s)
  {
    if Find(s, COLON).Some? {
      ColonSpaceAt(s, Find(s, COLON).value);
    } else {
      forall i | 0 <= i < |s| - 1 ensures !(s[i] == ':' && s[i + 1] == ' ') { ColonSpaceAt(s, i); }
    }
  }

  lemma HttpIff(s: string)
    ensures Substr(s, 0, 4) == "HTTP" <==> "HTTP" <= s
  {
    if |s| >= 4 { assert Substr(s, 0, 4) == s[..4]; } else { assert Substr(s, 0, 4) == s; }
  }

  predicate IsDigit(c: char) { '0' <= c <= '9' }

  // Decimal value of the leading digits, saturating at the largest size_t.
  function ParseDigits(s: string, acc: nat): (n: nat)
    requires acc < SIZE_T
    ensures n < SIZE_T
  {
    if s == [] || !IsDigit(s[0]) then acc
    else
      var next := acc * 10 + (s[0] as int - '0' as int);
      if next >= SIZE_T then SIZE_T - 1 else ParseDigits(s[1..], next)
  }

  predicate IsSpace(c: char) { c == ' ' || '\t' <= c <= '\r' }

  function SkipSpace(s: string): string {
    if s != [] && IsSpace(s[0]) then SkipSpace(s[1..]) else s
  }

  function SkipPlus(s: string): string {
    if s != [] && s[0] == '+' then s[1..] else s
  }

  // What StringToSizeT leaves in its output, whether or not it reports success.
  function ParseSize(s: string): (n: nat)
    ensures n < SIZE_T
  {
    ParseDigits(SkipPlus(SkipSpace(s)), 0)
  }

  function Digit(d: nat): char
    requires d < 10
  {
    ('0' as int + d) as char
  }

  function Decimal(n: nat): string {
    if n < 10 then [Digit(n)] else Decimal(n / 10) + [Digit(n % 10)]
  }

  lemma {:induction false} ParseNextDigit(s: string, d: nat, acc: nat)
    requires d < 10 && acc < SIZE_T && forall i :: 0 <= i < |s| ==> IsDigit(s[i])
    ensures ParseDigits(s + [Digit(d)], acc) == Min(ParseDigits(s, acc) * 10 + d, SIZE_T - 1)
  {
    if s == [] {
      assert s + [Digit(d)] == [Digit(d)];
      assert [Digit(d)][1..] == [];
    } else {
      var next := acc * 10 + (s[0] as int - '0' as int);
      assert (s + [Digit(d)])[0] == s[0] && (s + [Digit(d)])[1..] == s[1..] + [Digit(d)];
      if next < SIZE_T { ParseNextDigit(s[1..], d, next); }
    }
  }

  lemma {:induction false} DigitsReadBack(n: nat)
    ensures forall i :: 0 <= i < |Decimal(n)| ==> IsDigit(Decimal(n)[i])
    ensures ParseDigits(Decimal(n), 0) == Min(n, SIZE_T - 1)
  {
    if n < 10 {
      assert [Digit(n)][1..] == [];
    } else {
      DigitsReadBack(n / 10);
      ParseNextDigit(Decimal(n / 10), n % 10, 0);
    }
  }

  lemma {:induction false} SpaceIsSkipped(pad: string, s: string)
    requires forall i :: 0 <= i < |pad| ==> IsSpace(pad[i])
    requires s != [] && !IsSpace(s[0])
    ensures SkipSpace(pad + s) == s
  {
    if pad == [] {
      assert pad + s == s;
    } else {
      assert (pad + s)[0] == pad[0] && (pad + s)[1..] == pad[1..] + s;
      SpaceIsSkipped(pad[1..], s);
    }
  }

  lemma DecimalDigits(n: nat)
    ensures n < 10 ==> Decimal(n) == ["0123456789"[n]]
    ensures n >= 10 ==> Decimal(n) == Decimal(n / 10) + ["0123456789"[n % 10]]
  {
    assert forall d :: 0 <= d < 10 ==> "0123456789"[d] as int == 48 + d;
  }

  lemma {:induction false} RestIsIgnored(d: string, rest: string, acc: nat)
    requires acc < SIZE_T && (rest == "" || rest[0] !in "0123456789")
    requires forall i :: 0 <= i < |d| ==> IsDigit(d[i])
    ensures ParseDigits(d + rest, acc) == ParseDigits(d, acc)
  {
    if d == [] {
      assert d + rest == rest;
      if rest != "" { DigitIff(rest); }
    } else {
      assert (d + rest)[0] == d[0] && (d + rest)[1..] == d[1..] + rest;
      var next := acc * 10 + (d[0] as int - '0' as int);
      if next < SIZE_T { RestIsIgnored(d[1..], rest, next); }
    }
  }

  lemma DigitIff(s: string)
    requires s != ""
    ensures IsDigit(s[0]) <==> s[0] in "0123456789"
  {
    var digits := "0123456789";
    assert forall d :: 0 <= d < 10 ==> digits[d] as int == 48 + d;
    if IsDigit(s[0]) { assert digits[s[0] as int - 48] == s[0]; }
  }

  lemma BlanksAreSpace(pad: string)
    requires forall i :: 0 <= i < |pad| ==> pad[i] in " \t\n\U{B}\U{C}\r"
    ensures forall i :: 0 <= i < |pad| ==> IsSpace(pad[i])
  {
    forall i | 0 <= i < |pad| ensures IsSpace(pad[i]) { assert pad[i] in " \t\n\U{B}\U{C}\r"; }
  }

  lemma {:induction false} SpacesAndPlus(pad: string, d: string)
    requires forall i :: 0 <= i < |pad| ==> IsSpace(pad[i])
    requires d != "" && IsDigit(d[0])
    ensures SkipPlus(SkipSpace(pad + d)) == SkipPlus(SkipSpace(pad + "+" + d)) == d
  {
    hide SkipSpace;
    SpaceIsSkipped(pad, d);
    SpaceIsSkipped(pad, "+" + d);
    assert ("+" + d)[1..] == d && pad + "+" + d == pad + ("+" + d);
  }

  // A length printed in decimal, after white space and with or without a plus sign, and
  // before anything but a digit, is read back, up to the largest size_t.
  lemma DecimalReadsBack(pad: string, n: nat, rest: string)
    requires forall i :: 0 <= i < |pad| ==> pad[i] in " \t\n\U{B}\U{C}\r"
    requires rest == "" || rest[0] !in "0123456789"
    ensures ParseSize(pad + Decimal(n) + rest) == ParseSize(pad + "+" + Decimal(n) + rest)
            == Min(n, 0xFFFF_FFFF_FFFF_FFFF)
  {
    var d := Decimal(n);
    DigitsReadBack(n);
    BlanksAreSpace(pad);
    RestIsIgnored(d, rest, 0);
    SpacesAndPlus(pad, d + rest);
    hide Decimal, ParseDigits, SkipSpace, SkipPlus, IsSpace;
    assert pad + d + rest == pad + (d + rest) && pad + "+" + d + rest == pad + "+" + (d + rest);
  }

  // What does not begin like a number reads as zero.
  lemma NoNumberIsZero(s: string)
    requires s == "" || s[0] !in "0123456789+ \t\n\U{B}\U{C}\r"
    ensures ParseSize(s) == 0
  {
    if s != "" { DigitIff(s); }
  }

  // ---------- the block ----------

  function Get(b: Block, name: string): seq<string> {
    if b == [] then [] else if b[0].name == name then b[0].values else Get(b[1..], name)
  }

  predicate Has(b: Block, name: string) {
    b != [] && (b[0].name == name || Has(b[1..], name))
  }

  // AppendValueOrAddHeader.
  function AppendValueOrAdd(b: Block, name: string, value: string): Block {
    if b == [] then [Entry(name, [value])]
    else if b[0].name == name then [Entry(name, b[0].values + [value])] + b[1..]
    else [b[0]] + AppendValueOrAdd(b[1..], name, value)
  }

  // operator[] assignment: replaces whatever was stored under the name.
  function SetValue(b: Block, name: string, value: string): Block {
    if b == [] then [Entry(name, [value])]
    else if b[0].name == name then [Entry(name, [value])] + b[1..]
    else [b[0]] + SetValue(b[1..], name, value)
  }

  // A looked-up header reads as one string: values joined by NUL, cookies by "; ".
  function Joined(name: string, values: seq<string>): string {
    if values == [] then ""
    else if |values| == 1 then values[0]
    else values[0] + (if name == "cookie" then "; " else "\0") + Joined(name, values[1..])
  }

  function Lookup(b: Block, name: string): string {
    Joined(name, Get(b, name))
  }

  function Names(b: Block): seq<string> {
    seq(|b|, i requires 0 <= i < |b| => b[i].name)
  }

  // ---------- lines ----------

  function Print(h: Header): string {
    h.name + COLON + h.value
  }

  datatype Line = EndOfBlock | Status(code: string) | NoStatus | Field(header: Header) | NoField

  // The classification in HttpHeaderCallback; every line libcurl passes ends in CRLF.
  function Classify(line: string): Line
    requires |line| >= 2
  {
    if line == CRLF then EndOfBlock
    else
      var text := line[..|line| - 2];
      if Substr(text, 0, 4) == "HTTP" then
        match Find(text, " ")
        case None => NoStatus
        case Some(i) => Status(Substr(text, i + 1, 3))
      else
        match Find(text, COLON)
        case None => NoField
        case Some(i) => Field(Header(ToLower(text[..i]), text[i + 2..]))
  }

  // What a line leaves in the block being collected.
  function Collect(b: Block, line: Line): Block {
    match line
    case Status(code) => SetValue(b, ":status", code)
    case Field(h) => AppendValueOrAdd(b, h.name, h.value)
    case _ => b
  }

  // A name that no printed line can hide: it holds no ": " and its line is not taken
  // for a status line.
  predicate Printable(h: Header) {
    !HasColonSpace(h.name) && !("HTTP" <= h.name + ": " + h.value)
  }

  lemma PrintedLineIsField(h: Header)
    requires Printable(h)
    ensures Classify(h.name + ": " + h.value + "\r\n") == Field(Header(ToLower(h.name), h.value))
  {
    var line := Print(h) + CRLF;
    var text := line[..|line| - 2];
    assert text == Print(h);
    assert |line| > 2;
    HttpIff(text);
    ColonSpaceIff(h.name);
    var n := |h.name|;
    assert OccursAt(text, COLON, n) by { assert text[n..n + 2] == COLON; }
    forall j | 0 <= j < n ensures !OccursAt(text, COLON, j) {
      assert !OccursAt(h.name, COLON, j);
      if j + 1 < n {
        assert text[j..j + 2] == h.name[j..j + 2];
      } else {
        assert text[j..j + 2][1] == ':';
      }
    }
    assert Find(text, COLON) == Some(n);
    assert text[..n] == h.name && text[n + 2..] == h.value;
  }

  // A status line yields its three-digit code.
  lemma StatusLineYieldsCode(version: string, code: string, reason: string)
    requires "HTTP" <= version && ' ' !in version && |code| == 3
    ensures Classify(version + " " + code + reason + "\r\n") == Status(code)
  {
    var text := version + " " + code + reason;
    assert text[|version|] == ' ' && "HTTP" <= text;
    forall j | 0 <= j < |version| ensures text[j] != ' ' { assert text[j] == version[j]; }
    LineIsClassified(text, |version|);
    assert text[|version| + 1..][..3] == code;
  }

  lemma SpaceAt(s: string, i: nat)
    ensures OccursAt(s, " ", i) <==> i < |s| && s[i] == ' '
  {
    if i < |s| { assert s[i..i + 1] == [s[i]]; }
  }

  // The first place where a pattern occurs is the one that is found.
  lemma FoundFirst(s: string, pat: string, i: nat)
    requires OccursAt(s, pat, i) && forall j :: 0 <= j < i ==> !OccursAt(s, pat, j)
    ensures Find(s, pat) == Some(i)
  {
  }

  // What any line is taken for.
  lemma LineIsClassified(text: string, i: nat)
    ensures var parsed := Classify(text + "\r\n");
            && (text == "" ==> parsed == EndOfBlock)
            && ("HTTP" <= text && ' ' !in text ==> parsed == NoStatus)
            && ("HTTP" <= text && i < |text| && text[i] == ' ' && ' ' !in text[..i] ==>
                  parsed == Status(text[i + 1..][..Min(3, |text| - i - 1)]))
            && (text != "" && !("HTTP" <= text) && !HasColonSpace(text) ==> parsed == NoField)
            && (!("HTTP" <= text) && i + 1 < |text| && text[i] == ':' && text[i + 1] == ' '
                && !HasColonSpace(text[..i + 1]) ==>
                  parsed == Field(Header(ToLower(text[..i]), text[i + 2..])))
  {
    var line := text + CRLF;
    assert line[..|line| - 2] == text && (line == CRLF <==> text == "");
    hide Find, ToLower, HasColonSpace;
    HttpIff(text);
    if "HTTP" <= text {
      FirstSpace(text, i);
    } else {
      FirstColonSpace(text, i);
    }
  }

  lemma FirstSpace(text: string, i: nat)
    ensures ' ' !in text ==> Find(text, " ").None?
    ensures i < |text| && text[i] == ' ' && ' ' !in text[..i] ==>
              Find(text, " ") == Some(i) && Substr(text, i + 1, 3) == text[i + 1..][..Min(3, |text| - i - 1)]
  {
    if ' ' !in text { AbsentIsNotFound(text, ' '); }
    if i < |text| && text[i] == ' ' && ' ' !in text[..i] {
      forall j | 0 <= j < i ensures !OccursAt(text, " ", j) {
        SpaceAt(text, j);
        assert text[j] == text[..i][j];
      }
      SpaceAt(text, i);
      FoundFirst(text, " ", i);
    }
  }

  lemma FirstColonSpace(text: string, i: nat)
    ensures !HasColonSpace(text) ==> Find(text, COLON).None?
    ensures i + 1 < |text| && text[i] == ':' && text[i + 1] == ' ' && !HasColonSpace(text[..i + 1]) ==>
              Find(text, COLON) == Some(i)
  {
    ColonSpaceIff(text);
    if i + 1 < |text| && text[i] == ':' && text[i + 1] == ' ' && !HasColonSpace(text[..i + 1]) {
      forall j | 0 <= j < i ensures !OccursAt(text, COLON, j) {
        ColonSpaceAt(text, j);
        assert text[..i + 1][j] == text[j] && text[..i + 1][j + 1] == text[j + 1];
      }
      ColonSpaceAt(text, i);
      FoundFirst(text, COLON, i);
    }
  }

  // ---------- the round trip ----------

  function CollectAll(b: Block, hs: seq<Header>): Block
    decreases |hs|
  {
    if hs == [] then b
    else CollectAll(AppendValueOrAdd(b, ToLower(hs[0].name), hs[0].value), hs[1..])
  }

  // Feeding the printed lines one by one to the parser.
  function ParseAll(b: Block, lines: seq<string>): Block
    requires forall i :: 0 <= i < |lines| ==> |lines[i]| >= 2
    decreases |lines|
  {
    if lines == [] then b else ParseAll(Collect(b, Classify(lines[0])), lines[1..])
  }

  function PrintAll(hs: seq<Header>): (lines: seq<string>)
    ensures |lines| == |hs|
    ensures forall i :: 0 <= i < |lines| ==> lines[i] == Print(hs[i]) + CRLF
  {
    seq(|hs|, i requires 0 <= i < |hs| => Print(hs[i]) + CRLF)
  }

  // Reference reading of a header list, by name.
  function ValuesOf(hs: seq<Header>, name: string): seq<string> {
    if hs == [] then []
    else (if ToLower(hs[0].name) == name then [hs[0].value] else []) + ValuesOf(hs[1..], name)
  }

  predicate DistinctNames(b: Block) {
    forall i, j :: 0 <= i < j < |b| ==> b[i].name != b[j].name
  }

  lemma {:induction false} GetAfterAppend(b: Block, name: string, value: string, n: string)
    ensures Get(AppendValueOrAdd(b, name, value), n) == Get(b, n) + (if n == name then [value] else [])
    ensures Has(AppendValueOrAdd(b, name, value), n) <==> Has(b, n) || n == name
  {
    if b == [] {
    } else {
      GetAfterAppend(b[1..], name, value, n);
    }
  }

  lemma {:induction false} GetAfterSet(b: Block, name: string, value: string, n: string)
    ensures Get(SetValue(b, name, value), n) == if n == name then [value] else Get(b, n)
  {
    if b == [] {
    } else {
      GetAfterSet(b[1..], name, value, n);
    }
  }

  // A status line replaces an earlier one of the same block and leaves the fields alone.
  lemma LastStatusCounts(b: Block, code: string, n: string)
    ensures Get(Collect(b, Status(code)), n) == if n == ":status" then [code] else Get(b, n)
  {
    GetAfterSet(b, ":status", code, n);
  }

  lemma {:induction false} NamesAfterAppend(b: Block, name: string, value: string)
    ensures Names(AppendValueOrAdd(b, name, value)) == if Has(b, name) then Names(b) else Names(b) + [name]
  {
    if b == [] {
    } else if b[0].name == name {
      assert Names([Entry(name, b[0].values + [value])] + b[1..]) == Names(b);
    } else {
      NamesAfterAppend(b[1..], name, value);
      var r := AppendValueOrAdd(b[1..], name, value);
      assert Names([b[0]] + r) == [b[0].name] + Names(r);
      assert Names(b) == [b[0].name] + Names(b[1..]);
    }
  }

  lemma {:induction false} NamesAfterSet(b: Block, name: string, value: string)
    ensures Names(SetValue(b, name, value)) == if Has(b, name) then Names(b) else Names(b) + [name]
  {
    if b == [] {
    } else if b[0].name == name {
      assert Names([Entry(name, [value])] + b[1..]) == Names(b);
    } else {
      NamesAfterSet(b[1..], name, value);
      var r := SetValue(b[1..], name, value);
      assert Names([b[0]] + r) == [b[0].name] + Names(r);
      assert Names(b) == [b[0].name] + Names(b[1..]);
    }
  }

  // Lowercased names in order of first appearance, given those already seen.
  function FirstNames(hs: seq<Header>, seen: seq<string>): seq<string> {
    if hs == [] then seen
    else
      var n := ToLower(hs[0].name);
      FirstNames(hs[1..], if n in seen then seen else seen + [n])
  }

  lemma {:induction false} HasIsName(b: Block, name: string)
    ensures Has(b, name) <==> name in Names(b)
  {
    if b == [] {
    } else {
      HasIsName(b[1..], name);
      assert Names(b) == [b[0].name] + Names(b[1..]);
    }
  }

  lemma {:induction false} CollectedByName(b: Block, hs: seq<Header>, n: string)
    ensures Get(CollectAll(b, hs), n) == Get(b, n) + ValuesOf(hs, n)
    decreases |hs|
  {
    hide AppendValueOrAdd, Get, ToLower;
    if hs == [] {
    } else {
      var b' := AppendValueOrAdd(b, ToLower(hs[0].name), hs[0].value);
      CollectedByName(b', hs[1..], n);
      GetAfterAppend(b, ToLower(hs[0].name), hs[0].value, n);
      var first := if ToLower(hs[0].name) == n then [hs[0].value] else [];
      assert Get(b, n) + first + ValuesOf(hs[1..], n) == Get(b, n) + (first + ValuesOf(hs[1..], n));
    }
  }

  lemma {:induction false} CollectedPresence(b: Block, hs: seq<Header>, n: string)
    ensures Has(CollectAll(b, hs), n) <==> Has(b, n) || ValuesOf(hs, n) != []
    decreases |hs|
  {
    if hs == [] {
    } else {
      GetAfterAppend(b, ToLower(hs[0].name), hs[0].value, n);
      CollectedPresence(AppendValueOrAdd(b, ToLower(hs[0].name), hs[0].value), hs[1..], n);
    }
  }

  lemma {:induction false} CollectedNames(b: Block, hs: seq<Header>)
    ensures Names(CollectAll(b, hs)) == FirstNames(hs, Names(b))
    decreases |hs|
  {
    if hs == [] {
    } else {
      var name := ToLower(hs[0].name);
      NamesAfterAppend(b, name, hs[0].value);
      HasIsName(b, name);
      CollectedNames(AppendValueOrAdd(b, name, hs[0].value), hs[1..]);
    }
  }

  lemma {:induction false} ParseIsCollect(b: Block, hs: seq<Header>)
    requires forall i :: 0 <= i < |hs| ==> Printable(hs[i])
    ensures ParseAll(b, PrintAll(hs)) == CollectAll(b, hs)
    decreases |hs|
  {
    if hs == [] {
    } else {
      PrintedLineIsField(hs[0]);
      assert PrintAll(hs)[1..] == PrintAll(hs[1..]);
      ParseIsCollect(AppendValueOrAdd(b, ToLower(hs[0].name), hs[0].value), hs[1..]);
    }
  }

  lemma DistinctAfter(b: Block, b': Block, name: string)
    requires DistinctNames(b) && Names(b') == if Has(b, name) then Names(b) else Names(b) + [name]
    ensures DistinctNames(b')
  {
    HasIsName(b, name);
    forall i, j | 0 <= i < j < |b'| ensures b'[i].name != b'[j].name {
      assert Names(b')[i] == b'[i].name && Names(b')[j] == b'[j].name;
      assert forall k :: 0 <= k < |b| ==> Names(b)[k] == b[k].name;
    }
  }

  lemma {:induction false} GetIsTheEntry(b: Block, i: nat)
    requires DistinctNames(b) && i < |b|
    ensures Get(b, b[i].name) == b[i].values
  {
    if i > 0 { GetIsTheEntry(b[1..], i - 1); }
  }

  // Whatever lines arrive, a name has one entry in the block, so a lookup sees all that was
  // collected under it.
  lemma {:induction false} CollectedOncePerName(b: Block, lines: seq<string>)
    requires DistinctNames(b) && forall i :: 0 <= i < |lines| ==> |lines[i]| >= 2
    ensures var r := ParseAll(b, lines);
            DistinctNames(r) && forall i :: 0 <= i < |r| ==> Get(r, r[i].name) == r[i].values
    decreases |lines|
  {
    if lines == [] {
      forall i | 0 <= i < |b| ensures Get(b, b[i].name) == b[i].values { GetIsTheEntry(b, i); }
    } else {
      var parsed := Classify(lines[0]);
      var b' := Collect(b, parsed);
      if parsed.Status? {
        NamesAfterSet(b, ":status", parsed.code);
        DistinctAfter(b, b', ":status");
      } else if parsed.Field? {
        NamesAfterAppend(b, parsed.header.name, parsed.header.value);
        DistinctAfter(b, b', parsed.header.name);
      }
      CollectedOncePerName(b', lines[1..]);
    }
  }

  // Print then parse: the lowercased names in order of first appearance, each with its
  // values in order.
  lemma HeaderRoundTrip(hs: seq<Header>, n: string)
    requires forall i :: 0 <= i < |hs| ==> Printable(hs[i])
    ensures var b := ParseAll([], PrintAll(hs));
            Names(b) == FirstNames(hs, []) && Get(b, n) == ValuesOf(hs, n)
  {
    ParseIsCollect([], hs);
    CollectedNames([], hs);
    CollectedByName([], hs, n);
    assert Names([]) == [];
  }

  // A printed line reads back as its header exactly when it is printable in this sense;
  // otherwise it is split too early or taken for a status line.
  lemma RoundTripIff(h: Header)
    ensures Classify(h.name + ": " + h.value + "\r\n") == Field(Header(ToLower(h.name), h.value))
            <==> !HasColonSpace(h.name) && !("HTTP" <= h.name + ": " + h.value)
  {
    var line := Print(h) + CRLF;
    var text := line[..|line| - 2];
    assert text == Print(h);
    HttpIff(text);
    ColonSpaceIff(h.name);
    if Printable(h) {
      PrintedLineIsField(h);
    } else if Substr(text, 0, 4) != "HTTP" {
      var i := Find(h.name, COLON).value;
      assert text[i..i + 2] == h.name[i..i + 2];
      assert OccursAt(text, COLON, i);
      var k := Find(text, COLON).value;
      assert k <= i < |h.name|;
      assert |ToLower(text[..k])| == k;
    }
  }

  predicate IsBlank(c: char) { c == ' ' || c == '\t' }

  predicate IsOws(s: string) { forall i :: 0 <= i < |s| ==> IsBlank(s[i]) }

  predicate Trimmed(value: string) {
    value != "" ==> !IsBlank(value[0]) && !IsBlank(value[|value| - 1])
  }

  // A header field as section 3.2 of RFC 7230 writes it, with optional white space.
  function FieldText(name: string, before: string, value: string, after: string): string {
    name + ":" + before + value + after
  }

  // It reads as its header exactly when, besides the name being free of ": " and the line
  // not taken for a status line, the white space is the one space before the value.
  lemma FieldLineIff(name: string, before: string, value: string, after: string)
    requires IsOws(before) && IsOws(after) && Trimmed(value)
    ensures Classify(FieldText(name, before, value, after) + "\r\n") == Field(Header(ToLower(name), value))
            <==> && !HasColonSpace(name)
                 && !("HTTP" <= FieldText(name, before, value, after))
                 && (if value == "" then before + after == " " else before == " " && after == "")
  {
    OneSpaceIff(before, value, after);
    if before + value + after == " " + value {
      FieldIsPrinted(name, before, value, after);
      RoundTripIff(Header(name, value));
    } else {
      NotReadBack(name, before, value, after);
    }
  }

  lemma FieldIsPrinted(name: string, before: string, value: string, after: string)
    requires before + value + after == " " + value
    ensures FieldText(name, before, value, after) == Print(Header(name, value))
  {
    var rest := before + value + after;
    assert FieldText(name, before, value, after) == name + ":" + rest;
    assert name + ":" + (" " + value) == name + COLON + value;
  }

  lemma OneSpaceIff(before: string, value: string, after: string)
    requires IsOws(before) && IsOws(after) && Trimmed(value)
    ensures before + value + after == " " + value
            <==> if value == "" then before + after == " " else before == " " && after == ""
  {
    var rest := before + value + after;
    if value == "" {
      assert rest == before + after && " " + value == " ";
    } else if before == "" {
      assert rest[0] == value[0] != (" " + value)[0];
    } else if rest == " " + value {
      assert |before| == 1 && |after| == 0 && before[0] == rest[0];
    }
  }

  lemma NotReadBack(name: string, before: string, value: string, after: string)
    requires before + value + after != " " + value
    ensures Classify(FieldText(name, before, value, after) + CRLF) != Field(Header(ToLower(name), value))
  {
    var text := FieldText(name, before, value, after);
    var line := text + CRLF;
    assert line[..|line| - 2] == text && line != CRLF;
    if Substr(text, 0, 4) != "HTTP" && Find(text, COLON).Some? {
      var k := Find(text, COLON).value;
      assert |ToLower(text[..k])| == k;
      if k == |name| {
        assert text[k + 1] == text[k..k + 2][1] == ' ';
        assert text[k + 1..] == before + value + after;
        assert text[k + 1..] == [text[k + 1]] + text[k + 2..];
      }
    }
  }

  // Without a ": " anywhere the field is dropped, for instance when no space follows the
  // colon.
  lemma TightFieldIsDropped(name: string, value: string)
    requires !HasColonSpace(name) && !HasColonSpace(value) && (value != "" ==> value[0] != ' ')
    ensures Classify(FieldText(name, "", value, "") + "\r\n") == NoField
            <==> !("HTTP" <= FieldText(name, "", value, ""))
  {
    var text := FieldText(name, "", value, "");
    assert text == name + ":" + value;
    NoColonSpace(name, value);
    LineIsClassified(text, 0);
    if "HTTP" <= text { StatusIsNotDropped(text); }
  }

  lemma StatusIsNotDropped(text: string)
    requires "HTTP" <= text
    ensures Classify(text + "\r\n") != NoField
  {
    var line := text + CRLF;
    assert line[..|line| - 2] == text && line != CRLF;
    HttpIff(text);
  }

  lemma NoColon(s: string)
    requires ':' !in s
    ensures !HasColonSpace(s)
  {
    forall i | 0 <= i < |s| - 1 ensures s[i] != ':' { assert s[i] in s; }
  }

  lemma TightLengthIsDropped(n: nat)
    ensures Classify(FieldText("Content-Length", "", Decimal(n), "") + "\r\n") == NoField
  {
    DigitsReadBack(n);
    var name, value := "Content-Length", Decimal(n);
    assert value != "" ==> IsDigit(value[0]);
    NoColon(name);
    NoColon(value);
    hide Decimal, Find, Classify, HasColonSpace;
    TightFieldIsDropped(name, value);
    assert FieldText(name, "", value, "")[0] == 'C';
  }

  lemma NoColonSpace(name: string, value: string)
    requires !HasColonSpace(name) && !HasColonSpace(value) && (value != "" ==> value[0] != ' ')
    ensures !HasColonSpace(name + ":" + value)
  {
    var text := name + ":" + value;
    var n := |name|;
    forall i | 0 <= i < |text| - 1 ensures !(text[i] == ':' && text[i + 1] == ' ') {
      if n < i { assert text[i] == value[i - n - 1] && text[i + 1] == value[i - n]; }
    }
  }
}
