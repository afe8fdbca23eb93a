/** The operations of Go's `strings`, `strconv` and `unicode` packages that the models use, and what they share. */
module Text {
  datatype Option<+T> = None | Some(value: T)

  /** The zero `time.Time`, in seconds from the Unix epoch. */
  const ZERO_TIME: int := -62135596800

  ghost predicate Distinct<T>(xs: seq<T>) {
    forall i, j | 0 <= i < j < |xs| :: xs[i] != xs[j]
  }

  // ---------------------------------------------------------------- white space

  /** `unicode.IsSpace`. */
  predicate IsSpace(c: char) {
    || c == '\t' || c == '\n' || c == '\U{0B}' || c == '\U{0C}' || c == '\r' || c == ' '
    || c == '\U{85}' || c == '\U{A0}' || c == '\U{1680}' || ('\U{2000}' <= c <= '\U{200A}')
    || c == '\U{2028}' || c == '\U{2029}' || c == '\U{202F}' || c == '\U{205F}' || c == '\U{3000}'
  }

  predicate SpaceFree(s: string) {
    forall c | c in s :: !IsSpace(c)
  }

  predicate Word(s: string) {
    s != "" && SpaceFree(s)
  }

  /** The length of the longest space-free prefix. */
  function WordLen(s: string): (n: nat)
    ensures n <= |s| && SpaceFree(s[..n]) && (n < |s| ==> IsSpace(s[n]))
    ensures s != "" && !IsSpace(s[0]) ==> n > 0
  {
    if s == "" || IsSpace(s[0]) then 0
    else
      var n := 1 + WordLen(s[1..]);
      assert s[..n] == [s[0]] + s[1..][..n - 1];
      n
  }

  /** `strings.Fields`. */
  function Fields(s: string): (ws: seq<string>)
    ensures forall w | w in ws :: Word(w)
    decreases |s|
  {
    if s == "" then []
    else if IsSpace(s[0]) then Fields(s[1..])
    else [s[..WordLen(s)]] + Fields(s[WordLen(s)..])
  }

  function Join(ws: seq<string>, sep: string): string {
    if ws == [] then ""
    else if |ws| == 1 then ws[0]
    else ws[0] + sep + Join(ws[1..], sep)
  }

  lemma {:induction false} WordLenOf(w: string, rest: string)
    requires SpaceFree(w) && (rest == "" || IsSpace(rest[0]))
    ensures WordLen(w + rest) == |w|
    decreases |w|
  {
    if w == "" {
      assert w + rest == rest;
    } else {
      assert w[0] in w;
      assert (w + rest)[1..] == w[1..] + rest;
      WordLenOf(w[1..], rest);
    }
  }

  lemma FieldsOfWord(w: string, rest: string)
    requires Word(w) && (rest == "" || IsSpace(rest[0]))
    ensures Fields(w + rest) == [w] + Fields(rest)
  {
    WordLenOf(w, rest);
    assert w[0] in w && (w + rest)[0] == w[0];
    assert (w + rest)[..|w|] == w && (w + rest)[|w|..] == rest;
  }

  /** Splitting undoes joining with single blanks. */
  lemma {:induction false} FieldsJoin(ws: seq<string>)
    requires forall w | w in ws :: Word(w)
    ensures Fields(Join(ws, " ")) == ws
    decreases |ws|
  {
    if |ws| == 1 {
      FieldsOfWord(ws[0], "");
      assert ws[0] + "" == ws[0];
    } else if |ws| > 1 {
      var rest := Join(ws[1..], " ");
      FieldsJoin(ws[1..]);
      FieldsOfWord(ws[0], " " + rest);
      assert ws[0] + " " + rest == ws[0] + (" " + rest);
      assert (" " + rest)[1..] == rest;
    }
  }

  /** `oneLine`: white space collapsed to single blanks. */
  function OneLine(s: string): string {
    Join(Fields(s), " ")
  }

  lemma OneLineFields(s: string)
    ensures Fields(OneLine(s)) == Fields(s)
    ensures OneLine(OneLine(s)) == OneLine(s)
  {
    FieldsJoin(Fields(s));
  }

  predicate Without(s: string, c: char) {
    c !in s
  }

  lemma {:induction false} JoinWithout(ws: seq<string>, sep: string, c: char)
    requires (forall w | w in ws :: Without(w, c)) && Without(sep, c)
    ensures Without(Join(ws, sep), c)
    decreases |ws|
  {
    if |ws| > 1 {
      assert ws[0] in ws;
      JoinWithout(ws[1..], sep, c);
    } else if |ws| == 1 {
      assert ws[0] in ws;
    }
  }

  lemma OneLineIsOneLine(s: string)
    ensures Without(OneLine(s), '\n')
  {
    forall w | w in Fields(s)
      ensures Without(w, '\n')
    {
      assert Word(w);
    }
    JoinWithout(Fields(s), " ", '\n');
  }

  // ---------------------------------------------------------------- cutting

  function IndexOf(s: string, c: char): (n: nat)
    ensures n <= |s| && c !in s[..n] && (n < |s| ==> s[n] == c)
  {
    if s == "" || s[0] == c then 0
    else
      var n := 1 + IndexOf(s[1..], c);
      assert s[..n] == [s[0]] + s[1..][..n - 1];
      n
  }

  lemma {:induction false} IndexOfFirst(a: string, c: char, rest: string)
    requires c !in a
    ensures IndexOf(a + [c] + rest, c) == |a|
    decreases |a|
  {
    if a != "" {
      assert (a + [c] + rest)[1..] == a[1..] + [c] + rest;
      IndexOfFirst(a[1..], c, rest);
    }
  }

  lemma {:induction false} IndexOfNone(a: string, c: char)
    requires c !in a
    ensures IndexOf(a, c) == |a|
    decreases |a|
  {
    if a != "" {
      IndexOfNone(a[1..], c);
    }
  }

  /** `strings.Split` at a one-character separator. */
  function Split(s: string, c: char): (parts: seq<string>)
    ensures parts != []
    ensures parts[0] == s[..IndexOf(s, c)]
    decreases |s|
  {
    var n := IndexOf(s, c);
    if n == |s| then
      assert s[..n] == s;
      [s]
    else [s[..n]] + Split(s[n + 1..], c)
  }

  lemma {:induction false} SplitJoin(parts: seq<string>, c: char)
    requires parts != [] && forall p | p in parts :: Without(p, c)
    ensures Split(Join(parts, [c]), c) == parts
    decreases |parts|
  {
    var p := parts[0];
    assert p in parts;
    if |parts| == 1 {
      IndexOfNone(p, c);
    } else {
      var rest := Join(parts[1..], [c]);
      SplitJoin(parts[1..], c);
      IndexOfFirst(p, c, rest);
      var s := p + [c] + rest;
      assert Join(parts, [c]) == s;
      assert s[..|p|] == p && s[|p| + 1..] == rest;
    }
  }

  /** The value of a `key=value` word: `strings.Cut` at the first '='. */
  datatype Pair = Pair(key: string, value: string)

  function CutPair(w: string): Option<Pair> {
    var n := IndexOf(w, '=');
    if n == |w| then None else Some(Pair(w[..n], w[n + 1..]))
  }

  lemma CutPairOf(key: string, value: string)
    requires '=' !in key
    ensures CutPair(key + "=" + value) == Some(Pair(key, value))
  {
    IndexOfFirst(key, '=', value);
    var w := key + "=" + value;
    assert w[..|key|] == key && w[|key| + 1..] == value;
  }

  /** The position of the first occurrence of `sub`, or the length of `s` when there is none. */
  function Find(s: string, sub: string): (n: nat)
    requires sub != ""
    ensures n <= |s| && (n < |s| ==> sub <= s[n..])
    decreases |s|
  {
    if s == "" then 0
    else if sub <= s then
      assert s[0..] == s;
      0
    else
      var n := Find(s[1..], sub);
      assert s[n + 1..] == s[1..][n..];
      1 + n
  }

  /** An occurrence after a head in which the separator cannot begin is the first one. */
  lemma {:induction false} FindAfter(head: string, sub: string, rest: string)
    requires sub != ""
    requires forall k | 0 <= k < |head| :: !(sub <= (head + sub + rest)[k..])
    ensures Find(head + sub + rest, sub) == |head|
    decreases |head|
  {
    var s := head + sub + rest;
    if head == "" {
      assert s == sub + rest;
      assert sub <= s;
    } else {
      assert s[0..] == s;
      assert s[1..] == head[1..] + sub + rest;
      forall k | 0 <= k < |head[1..]|
        ensures !(sub <= (head[1..] + sub + rest)[k..])
      {
        assert (head[1..] + sub + rest)[k..] == s[k + 1..];
      }
      FindAfter(head[1..], sub, rest);
    }
  }

  lemma {:induction false} FindNone(s: string, sub: string)
    requires sub != "" && forall k | 0 <= k < |s| :: !(sub <= s[k..])
    ensures Find(s, sub) == |s|
    decreases |s|
  {
    if s != "" {
      assert s[0..] == s;
      forall k | 0 <= k < |s[1..]|
        ensures !(sub <= s[1..][k..])
      {
        assert s[1..][k..] == s[k + 1..];
      }
      FindNone(s[1..], sub);
    }
  }

  function TrimPrefix(s: string, p: string): string {
    if p <= s then s[|p|..] else s
  }

  function TrimSuffix(s: string, c: char): string {
    if s != "" && s[|s| - 1] == c then s[..|s| - 1] else s
  }

  function TrimRight(s: string, c: char): string {
    if s != "" && s[|s| - 1] == c then TrimRight(s[..|s| - 1], c) else s
  }

  function TrimLeftSpace(s: string): string {
    if s != "" && IsSpace(s[0]) then TrimLeftSpace(s[1..]) else s
  }

  function TrimRightSpace(s: string): string {
    if s != "" && IsSpace(s[|s| - 1]) then TrimRightSpace(s[..|s| - 1]) else s
  }

  /** `strings.TrimSpace`. */
  function TrimSpace(s: string): string {
    TrimRightSpace(TrimLeftSpace(s))
  }

  /** Nothing but white space. */
  predicate Blank(s: string) {
    forall c | c in s :: IsSpace(c)
  }

  lemma {:induction false} BlankFields(s: string)
    ensures Fields(s) == [] <==> Blank(s)
    decreases |s|
  {
    hide IsSpace;
    if s != "" {
      if IsSpace(s[0]) {
        BlankFields(s[1..]);
        assert s == [s[0]] + s[1..];
      } else {
        assert s[0] in s;
      }
    }
  }

  lemma {:induction false} BlankTrims(s: string)
    ensures TrimLeftSpace(s) == "" <==> Blank(s)
    decreases |s|
  {
    hide IsSpace;
    if s != "" {
      assert s == [s[0]] + s[1..];
      if IsSpace(s[0]) {
        BlankTrims(s[1..]);
      } else {
        assert s[0] in s;
      }
    }
  }

  lemma {:induction false} RightOfInk(s: string, k: nat)
    requires k < |s| && !IsSpace(s[k])
    ensures TrimRightSpace(s) != ""
    decreases |s|
  {
    hide IsSpace;
    if IsSpace(s[|s| - 1]) {
      RightOfInk(s[..|s| - 1], k);
    }
  }

  lemma {:induction false} InkStays(s: string)
    ensures var t := TrimLeftSpace(s); t != "" ==> !IsSpace(t[0])
    decreases |s|
  {
    hide IsSpace;
    if s != "" && IsSpace(s[0]) {
      InkStays(s[1..]);
    }
  }

  lemma BlankText(s: string)
    ensures TrimSpace(s) == "" <==> Blank(s)
  {
    hide IsSpace, Blank;
    BlankTrims(s);
    InkStays(s);
    if TrimLeftSpace(s) != "" {
      RightOfInk(TrimLeftSpace(s), 0);
    }
  }

  /** Neither end is white space. */
  predicate Trimmed(s: string) {
    s != "" ==> !IsSpace(s[0]) && !IsSpace(s[|s| - 1])
  }

  lemma TrimmedStays(s: string)
    requires Trimmed(s)
    ensures TrimSpace(s) == s
  {
    hide IsSpace;
  }

  lemma {:induction false} TrimLeftParts(s: string) returns (pre: string)
    ensures Blank(pre) && s == pre + TrimLeftSpace(s)
    decreases |s|
  {
    hide IsSpace;
    if s != "" && IsSpace(s[0]) {
      pre := TrimLeftParts(s[1..]);
      pre := [s[0]] + pre;
    } else {
      pre := "";
    }
  }

  lemma {:induction false} TrimRightParts(s: string) returns (post: string)
    ensures Blank(post) && s == TrimRightSpace(s) + post
    ensures TrimRightSpace(s) != "" ==> !IsSpace(TrimRightSpace(s)[|TrimRightSpace(s)| - 1])
    decreases |s|
  {
    hide IsSpace;
    if s != "" && IsSpace(s[|s| - 1]) {
      post := TrimRightParts(s[..|s| - 1]);
      post := post + [s[|s| - 1]];
    } else {
      post := "";
    }
  }

  /** Trimming takes white space off both ends, and all of it. */
  lemma TrimSpaceTrims(s: string) returns (pre: string, post: string)
    ensures Blank(pre) && Blank(post) && s == pre + TrimSpace(s) + post
    ensures Trimmed(TrimSpace(s)) && TrimSpace(TrimSpace(s)) == TrimSpace(s)
  {
    hide IsSpace, Blank, TrimLeftSpace, TrimRightSpace;
    pre := TrimLeftParts(s);
    InkStays(s);
    var rest := TrimLeftSpace(s);
    post := TrimRightParts(rest);
    assert pre + rest == pre + TrimSpace(s) + post;
    assert TrimSpace(s) != "" ==> TrimSpace(s)[0] == rest[0];
    TrimmedStays(TrimSpace(s));
  }

  // ---------------------------------------------------------------- decimal numbers

  const MIN_INT64: int := -0x8000_0000_0000_0000
  const MAX_INT64: int := 0x7FFF_FFFF_FFFF_FFFF
  const MAX_UINT64: int := 0xFFFF_FFFF_FFFF_FFFF

  type int64 = n: int | MIN_INT64 <= n <= MAX_INT64

  /** 64-bit two's complement. */
  function Wrap(n: int): int64 {
    (n - MIN_INT64) % 0x1_0000_0000_0000_0000 + MIN_INT64
  }

  lemma WrapAdd(a: int, b: int)
    ensures Wrap(Wrap(a) + b) == Wrap(a + b)
  {
    var m := 0x1_0000_0000_0000_0000;
    var q := (a - MIN_INT64) / m;
    assert Wrap(a) + b - MIN_INT64 + q * m == a + b - MIN_INT64;
    WrapShift(Wrap(a) + b - MIN_INT64, q);
  }

  lemma WrapShift(x: int, q: int)
    ensures (x + q * 0x1_0000_0000_0000_0000) % 0x1_0000_0000_0000_0000 == x % 0x1_0000_0000_0000_0000
  {
  }

  predicate IsDigit(c: char) {
    '0' <= c <= '9'
  }

  function Digit(d: nat): (c: char)
    requires d < 10
    ensures IsDigit(c) && c as int - '0' as int == d && !IsSpace(c) && c != '\n' && c != '='
  {
    ('0' as int + d) as char
  }

  function Digits(n: nat): (s: string)
    ensures s != "" && forall c | c in s :: IsDigit(c)
  {
    if n < 10 then [Digit(n)] else Digits(n / 10) + [Digit(n % 10)]
  }

  /** `%d`. */
  function Itoa(n: int): (s: string)
    ensures Word(s) && Without(s, '\n')
  {
    if n < 0 then
      "-" + Digits(-n)
    else Digits(n)
  }

  datatype Scan = Syntax | Range | Value(n: nat)

  /** The digit loop of `strconv.ParseUint`: it stops at the first overflow, before later characters are seen. */
  function ScanUint(s: string, acc: nat): Scan {
    if s == "" then Value(acc)
    else if !IsDigit(s[0]) then Syntax
    else if acc >= MAX_UINT64 / 10 + 1 then Range
    else
      var next := acc * 10 + (s[0] as int - '0' as int);
      if next > MAX_UINT64 then Range else ScanUint(s[1..], next)
  }

  /** `atoi64`: `strconv.ParseInt(s, 10, 64)` with its error dropped. */
  function Atoi64(s: string): int64 {
    var neg := s != "" && s[0] == '-';
    var digits := if s != "" && (s[0] == '-' || s[0] == '+') then s[1..] else s;
    if digits == "" then 0
    else match ScanUint(digits, 0)
         case Syntax => 0
         case Range => if neg then MIN_INT64 else MAX_INT64
         case Value(n) =>
           var v: int := n;
           if neg then (if v > -MIN_INT64 then MIN_INT64 else -v)
           else if v > MAX_INT64 then MAX_INT64
           else v
  }

  lemma {:induction false} ScanDigits(n: nat, rest: string)
    requires n <= MAX_UINT64
    ensures ScanUint(Digits(n) + rest, 0) == ScanUint(rest, n)
    decreases n
  {
    if n < 10 {
      assert Digits(n) + rest == [Digit(n)] + rest;
      assert ([Digit(n)] + rest)[1..] == rest;
    } else {
      var tail := [Digit(n % 10)] + rest;
      ScanDigits(n / 10, tail);
      assert Digits(n) + rest == Digits(n / 10) + tail;
      assert tail[1..] == rest;
    }
  }

  /** Reading a printed number gives the number back. */
  lemma AtoiItoa(n: int64)
    ensures Atoi64(Itoa(n)) == n
  {
    if n < 0 {
      var m: int := n;
      var s := "-" + Digits(-m);
      assert s[1..] == Digits(-m);
      ScanDigits(-m, "");
      assert Digits(-m) + "" == Digits(-m);
    } else {
      ScanDigits(n, "");
      assert Digits(n) + "" == Digits(n);
      assert Digits(n)[0] in Digits(n);
    }
  }
}
