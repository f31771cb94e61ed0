/** Where uploaded functions are stored (pkg/commander/func_storage.go): a sanitised name
    with the hash of the bytes written into it. */
module FuncStorage {
  import opened Prelude

  type Byte = b: int | 0 <= b < 256
  type Hash = h: seq<Byte> | |h| == HASH_LEN witness seq(HASH_LEN, _ => 0)

  const HASH_LEN := 32
  const UNCLEAN := "func"

  // ---- path/filepath on Unix

  function TrimSlashes(path: string): string {
    if path != "" && path[|path| - 1] == '/' then TrimSlashes(path[..|path| - 1]) else path
  }

  function AfterLastSlash(path: string): string {
    if path == "" || path[|path| - 1] == '/' then ""
    else AfterLastSlash(path[..|path| - 1]) + [path[|path| - 1]]
  }

  /** filepath.Base */
  function Base(path: string): string {
    if path == "" then "."
    else if TrimSlashes(path) == "" then "/"
    else AfterLastSlash(TrimSlashes(path))
  }

  /** Position of the last dot of the last path element, or -1. */
  function DotAt(path: string): int {
    if path == "" || path[|path| - 1] == '/' then -1
    else if path[|path| - 1] == '.' then |path| - 1
    else DotAt(path[..|path| - 1])
  }

  lemma {:induction false} DotAtBounds(path: string)
    ensures -1 <= DotAt(path) < |path|
    ensures DotAt(path) >= 0 ==> path[DotAt(path)] == '.'
  {
    if path == "" {
    } else {
      DotAtBounds(path[..|path| - 1]);
    }
  }

  /** filepath.Ext */
  function Ext(path: string): string {
    DotAtBounds(path);
    if DotAt(path) < 0 then "" else path[DotAt(path)..]
  }

  function Stem(path: string): string {
    DotAtBounds(path);
    if DotAt(path) < 0 then path else path[..DotAt(path)]
  }

  // ---- names

  predicate NameChar(c: char) {
    'a' <= c <= 'z' || 'A' <= c <= 'Z' || '0' <= c <= '9' || c == '_' || c == ' ' || c == '-'
  }

  predicate AllNameChars(s: string) {
    forall k :: 0 <= k < |s| ==> NameChar(s[k])
  }

  /** The regular expression for names: name characters, then at most one extension. */
  predicate ValidFilename(s: string) {
    (s != "" && AllNameChars(s)) ||
    (exists k :: 0 < k < |s| - 1 && s[k] == '.' && AllNameChars(s[..k]) && AllNameChars(s[k + 1..]))
  }

  function Sanitize(name: string): string {
    if ValidFilename(Base(name)) then Base(name) else UNCLEAN
  }

  function HexDigit(n: int): char
    requires 0 <= n < 16
  {
    if n < 10 then '0' + n as char else 'A' + (n - 10) as char
  }

  function Hex(h: seq<Byte>): string {
    if h == [] then "" else [HexDigit(h[0] / 16), HexDigit(h[0] % 16)] + Hex(h[1..])
  }

  function FunctionFilename(name: string, hash: Hash): string {
    Stem(Sanitize(name)) + "-" + Hex(hash) + Ext(Sanitize(name))
  }

  const LOWER := {'a', 'b', 'c', 'd', 'e', 'f', 'g', 'h', 'i', 'j', 'k', 'l', 'm',
                  'n', 'o', 'p', 'q', 'r', 's', 't', 'u', 'v', 'w', 'x', 'y', 'z'}
  const UPPER := {'A', 'B', 'C', 'D', 'E', 'F', 'G', 'H', 'I', 'J', 'K', 'L', 'M',
                  'N', 'O', 'P', 'Q', 'R', 'S', 'T', 'U', 'V', 'W', 'X', 'Y', 'Z'}
  const DIGITS := {'0', '1', '2', '3', '4', '5', '6', '7', '8', '9'}

  /** The characters of the pattern, one by one. */
  lemma NameCharIff(c: char)
    ensures NameChar(c) <==> c in LOWER + UPPER + DIGITS + {'_', ' ', '-'}
  {
    LetterIff(c);
    assert '0' <= c <= '9' <==> c in DIGITS;
  }

  lemma LetterIff(c: char)
    ensures 'a' <= c <= 'z' <==> c in LOWER
    ensures 'A' <= c <= 'Z' <==> c in UPPER
  {
  }

  // ---- reading a stored name back

  function HexValue(c: char): int {
    if '0' <= c <= '9' then c as int - '0' as int else c as int - 'A' as int + 10
  }

  function Unhex(s: string): seq<int> {
    if |s| < 2 then [] else [16 * HexValue(s[0]) + HexValue(s[1])] + Unhex(s[2..])
  }

  /** The sanitised name and the hash a stored filename was made from. */
  function Decode(filename: string): Option<(string, seq<int>)> {
    var stem := Stem(filename);
    var cut := |stem| - 2 * HASH_LEN - 1;
    if cut < 0 then None else Some((stem[..cut] + Ext(filename), Unhex(stem[cut + 1..])))
  }

  lemma {:induction false} HexRoundTrip(h: seq<Byte>)
    ensures |Hex(h)| == 2 * |h| && AllNameChars(Hex(h)) && Unhex(Hex(h)) == h
  {
    if h == [] {
    } else {
      HexRoundTrip(h[1..]);
      var two := [HexDigit(h[0] / 16), HexDigit(h[0] % 16)];
      assert (two + Hex(h[1..]))[2..] == Hex(h[1..]);
      assert HexValue(two[0]) == h[0] / 16 && HexValue(two[1]) == h[0] % 16;
      assert h == [h[0]] + h[1..];
    }
  }

  lemma HexDigitIs(n: int)
    requires 0 <= n < 16
    ensures HexDigit(n) == "0123456789ABCDEF"[n]
  {
  }

  /** Two upper-case hexadecimal digits for each byte. */
  lemma {:induction false} HexDigits(h: seq<Byte>, k: nat)
    requires k < |h|
    ensures |Hex(h)| == 2 * |h|
    ensures Hex(h)[2 * k] == "0123456789ABCDEF"[h[k] / 16] && Hex(h)[2 * k + 1] == "0123456789ABCDEF"[h[k] % 16]
  {
    HexRoundTrip(h);
    if k == 0 {
      HexDigitIs(h[0] / 16);
      HexDigitIs(h[0] % 16);
    } else {
      HexDigits(h[1..], k - 1);
    }
  }

  /** Name characters after a path neither add nor move a dot. */
  lemma {:induction false} DotAtPlainTail(a: string, b: string)
    requires AllNameChars(b)
    ensures DotAt(a + b) == DotAt(a)
    decreases |b|
  {
    if b == "" {
      assert a + b == a;
    } else {
      var n := |b| - 1;
      assert (a + b)[..|a + b| - 1] == a + b[..n];
      assert NameChar((a + b)[|a + b| - 1]);
      DotAtPlainTail(a, b[..n]);
    }
  }

  lemma SplitPlain(s: string)
    requires AllNameChars(s)
    ensures Stem(s) == s && Ext(s) == ""
  {
    DotAtPlainTail("", s);
    assert "" + s == s;
  }

  lemma SplitDotted(stem: string, ext: string)
    requires AllNameChars(ext)
    ensures Stem(stem + "." + ext) == stem && Ext(stem + "." + ext) == "." + ext
  {
    var s := stem + "." + ext;
    DotAtPlainTail(stem + ".", ext);
    assert (stem + ".")[|stem|] == '.';
    assert s[..|stem|] == stem && s[|stem|..] == "." + ext;
  }

  /** Name characters with at most one extension, split at the dot. */
  predicate WellSplit(n: string) {
    && n == Stem(n) + Ext(n) && Stem(n) != "" && AllNameChars(Stem(n))
    && (Ext(n) == "" || (Ext(n)[0] == '.' && |Ext(n)| > 1 && AllNameChars(Ext(n)[1..])))
  }

  lemma PlainWellSplit(n: string)
    requires n != "" && AllNameChars(n)
    ensures WellSplit(n)
  {
    SplitPlain(n);
    assert n + "" == n;
  }

  lemma DottedWellSplit(stem: string, ext: string)
    requires stem != "" && ext != "" && AllNameChars(stem) && AllNameChars(ext)
    ensures WellSplit(stem + "." + ext)
  {
    SplitDotted(stem, ext);
    assert ("." + ext)[1..] == ext;
    assert stem + ("." + ext) == stem + "." + ext;
  }

  lemma ValidWellSplit(n: string)
    requires ValidFilename(n)
    ensures WellSplit(n)
  {
    if n != "" && AllNameChars(n) {
      PlainWellSplit(n);
    } else {
      var k :| 0 < k < |n| - 1 && n[k] == '.' && AllNameChars(n[..k]) && AllNameChars(n[k + 1..]);
      assert n == n[..k] + "." + n[k + 1..];
      DottedWellSplit(n[..k], n[k + 1..]);
    }
  }

  /** Whatever name is uploaded, the sanitised name matches the pattern. */
  lemma SanitizedParts(name: string)
    ensures ValidFilename(Sanitize(name)) && WellSplit(Sanitize(name))
  {
    assert AllNameChars(UNCLEAN);
    ValidWellSplit(Sanitize(name));
  }

  lemma PlainGlued(base: string, hex: string)
    requires AllNameChars(base) && AllNameChars(hex)
    ensures AllNameChars(base + "-" + hex)
  {
  }

  lemma SplitGlued(stem: string, ext: string)
    requires AllNameChars(stem) && (ext == "" || (ext[0] == '.' && AllNameChars(ext[1..])))
    ensures Stem(stem + ext) == stem && Ext(stem + ext) == ext
  {
    if ext == "" {
      assert stem + ext == stem;
      SplitPlain(stem);
    } else {
      assert ext == "." + ext[1..];
      assert stem + ext == stem + "." + ext[1..];
      SplitDotted(stem, ext[1..]);
    }
  }

  /** The parts of a stored filename: the base name, a dash and 64 digits, the extension. */
  lemma FilenameParts(name: string, hash: Hash)
    ensures var f, n := FunctionFilename(name, hash), Sanitize(name);
            Stem(f) == Stem(n) + "-" + Hex(hash) && |Hex(hash)| == 64 && Ext(f) == Ext(n)
  {
    var n := Sanitize(name);
    SanitizedParts(name);
    HexRoundTrip(hash);
    PlainGlued(Stem(n), Hex(hash));
    SplitGlued(Stem(n) + "-" + Hex(hash), Ext(n));
  }

  lemma DecodeParts(f: string, base: string, hex: string)
    requires Stem(f) == base + "-" + hex && |hex| == 2 * HASH_LEN
    ensures Decode(f) == Some((base + Ext(f), Unhex(hex)))
  {
    var stem := base + "-" + hex;
    assert stem[..|base|] == base && stem[|base| + 1..] == hex;
  }

  /** A stored filename decodes to exactly the sanitised name and the hash. */
  lemma DecodeFilename(name: string, hash: Hash)
    ensures Decode(FunctionFilename(name, hash)) == Some((Sanitize(name), hash))
  {
    FilenameParts(name, hash);
    SanitizedParts(name);
    HexRoundTrip(hash);
    DecodeParts(FunctionFilename(name, hash), Stem(Sanitize(name)), Hex(hash));
  }

  /** Two uploads share a stored filename iff they share the sanitised name and the hash. */
  lemma FilenameInjective(name: string, hash: Hash, name': string, hash': Hash)
    ensures FunctionFilename(name, hash) == FunctionFilename(name', hash') <==>
            Sanitize(name) == Sanitize(name') && hash == hash'
  {
    DecodeFilename(name, hash);
    DecodeFilename(name', hash');
  }

  /** A stored filename is one path element of its own: no separator, and not a dot entry. */
  lemma FilenameIsOneElement(name: string, hash: Hash)
    ensures var f := FunctionFilename(name, hash);
            '/' !in f && f != "." && f != ".." && Base(f) == f
  {
    var f, n := FunctionFilename(name, hash), Sanitize(name);
    FilenameParts(name, hash);
    SanitizedParts(name);
    HexRoundTrip(hash);
    assert AllNameChars(Stem(n) + "-" + Hex(hash));
    assert f == Stem(f) + Ext(f);
    assert |Stem(f)| > 2;
    NoSlashInside(f);
    BaseOfElement(f);
  }

  lemma {:induction false} BaseOfElement(f: string)
    requires f != "" && '/' !in f
    ensures Base(f) == f && AfterLastSlash(f) == f
  {
    var front := f[..|f| - 1];
    assert forall c :: c in front ==> c in f;
    if front == "" {
      assert AfterLastSlash(f) == AfterLastSlash("") + f;
    } else {
      BaseOfElement(front);
    }
    assert f == front + [f[|f| - 1]];
  }

  lemma NoSlashInside(n: string)
    requires WellSplit(n)
    ensures n != "" && '/' !in n
  {
    forall k | 0 <= k < |n|
      ensures n[k] != '/'
    {
      var a, b := Stem(n), Ext(n);
      assert n[k] == if k < |a| then a[k] else b[k - |a|];
      assert k > |a| ==> b[k - |a|] == b[1..][k - |a| - 1];
    }
  }

  /** Sanitising a sanitised name changes nothing. */
  lemma SanitizeIdempotent(name: string)
    ensures Sanitize(Sanitize(name)) == Sanitize(name)
  {
    SanitizedParts(name);
    NoSlashInside(Sanitize(name));
    BaseOfElement(Sanitize(name));
  }

  lemma {:induction false} LastElement(dir: string, e: string)
    requires '/' !in e
    ensures AfterLastSlash(dir + "/" + e) == e
    decreases |e|
  {
    if e == "" {
      assert dir + "/" + e == dir + "/";
    } else {
      var front := e[..|e| - 1];
      assert forall c :: c in front ==> c in e;
      LastElement(dir, front);
      assert (dir + "/" + e)[..|dir + "/" + e| - 1] == dir + "/" + front;
    }
  }

  /** Whatever directories precede it, the last path element is what gets sanitised. */
  lemma SanitizeTakesLastElement(dir: string, e: string)
    requires e != "" && '/' !in e
    ensures Sanitize(dir + "/" + e) == Sanitize(e) == if ValidFilename(e) then e else "func"
  {
    LastElement(dir, e);
    BaseOfElement(e);
    assert (dir + "/" + e)[|dir + "/" + e| - 1] == e[|e| - 1];
    assert TrimSlashes(dir + "/" + e) == dir + "/" + e;
  }

  lemma NoNames()
    ensures !ValidFilename("/") && !ValidFilename(".")
  {
    assert !NameChar("/"[0]) && !NameChar("."[0]);
  }

  /** A trailing separator does not matter. */
  lemma SanitizeDropsSlash(name: string)
    ensures Sanitize(name + "/") == Sanitize(name)
  {
    assert (name + "/")[..|name|] == name;
    assert TrimSlashes(name + "/") == TrimSlashes(name);
    NoNames();
  }

  /** Nothing, and nothing but separators, is no name. */
  lemma SanitizeEmpty()
    ensures Sanitize("") == "func" && Sanitize("/") == "func"
  {
    NoNames();
    assert "/"[..0] == "" && TrimSlashes("/") == TrimSlashes("");
  }
}
