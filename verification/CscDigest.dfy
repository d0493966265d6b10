/**
 * The digest of the custom-checks report (crates/gpapi/src/portal/csc.rs): the report is hashed
 * with a placeholder in it, and then every placeholder is replaced by the hash.
 */
module CscDigest {

  const DIGEST_PLACEHOLDER := "__#_PAN_CSC_DATA_DIGEST_#__"

  predicate Occurs(s: string, p: string, i: nat) {
    i + |p| <= |s| && forall j | 0 <= j < |p| :: s[i + j] == p[j]
  }

  ghost predicate Free(s: string, p: string) {
    forall i: nat :: !Occurs(s, p, i)
  }

  /** The first occurrence at or after `from`, or -1. */
  function Search(s: string, p: string, from: nat): (r: int)
    ensures r >= 0 ==> r >= from && Occurs(s, p, r)
    ensures forall i: nat | from <= i && (r < 0 || i < r) :: !Occurs(s, p, i)
    decreases |s| - from
  {
    if from + |p| > |s| then -1
    else if Occurs(s, p, from) then from
    else Search(s, p, from + 1)
  }

  /** `str::replace`: from the left, occurrences that do not overlap. */
  function Replace(s: string, p: string, d: string): string
    requires p != ""
    decreases |s|
  {
    var i := Search(s, p, 0);
    if i < 0 then s else s[..i] + d + Replace(s[i + |p|..], p, d)
  }

  predicate IsHex(c: char) {
    '0' <= c <= '9' || 'a' <= c <= 'f'
  }

  predicate AllHex(s: string) {
    forall i | 0 <= i < |s| :: IsHex(s[i])
  }

  predicate NoHex(p: string) {
    forall i | 0 <= i < |p| :: !IsHex(p[i])
  }

  /** An occurrence cannot cross a digest, and there is none on either side. */
  lemma SpliceIsFree(a: string, d: string, b: string, p: string)
    requires p != "" && NoHex(p) && d != "" && AllHex(d) && Free(a, p) && Free(b, p)
    ensures Free(a + d + b, p)
  {
    var s := a + d + b;
    forall i: nat ensures !Occurs(s, p, i) {
      if i + |p| <= |a| {
        assert !Occurs(a, p, i);
        var j :| 0 <= j < |p| && a[i + j] != p[j];
        assert s[i + j] == a[i + j];
      } else if i >= |a| + |d| {
        var k: nat := i - |a| - |d|;
        assert !Occurs(b, p, k);
        if k + |p| <= |b| {
          var j :| 0 <= j < |p| && b[k + j] != p[j];
          assert s[i + j] == b[k + j];
        }
      } else {
        var k := if i < |a| then |a| else i;
        assert s[k] == d[k - |a|] && IsHex(s[k]);
        assert !IsHex(p[k - i]);
        assert s[i + (k - i)] == s[k];
      }
    }
  }

  lemma PrefixIsFree(s: string, p: string)
    requires p != "" && Search(s, p, 0) >= 0
    ensures Free(s[..Search(s, p, 0)], p)
  {
    var i := Search(s, p, 0);
    forall k: nat ensures !Occurs(s[..i], p, k) {
      if k + |p| <= i {
        assert !Occurs(s, p, k);
        var j :| 0 <= j < |p| && s[k + j] != p[j];
        assert s[..i][k + j] == s[k + j];
      }
    }
  }

  /** No placeholder is left, and none is formed across a splice. */
  lemma {:induction false} ReplacedIsFree(s: string, p: string, d: string)
    requires p != "" && NoHex(p) && d != "" && AllHex(d)
    ensures Free(Replace(s, p, d), p)
    decreases |s|
  {
    var i := Search(s, p, 0);
    if i >= 0 {
      PrefixIsFree(s, p);
      ReplacedIsFree(s[i + |p|..], p, d);
      SpliceIsFree(s[..i], d, Replace(s[i + |p|..], p, d), p);
    }
  }

  // ---------- what is replaced ----------

  function JoinWith(parts: seq<string>, sep: string): string
    requires parts != []
  {
    if |parts| == 1 then parts[0] else parts[0] + sep + JoinWith(parts[1..], sep)
  }

  /** Each part but the last runs up to the first placeholder after it starts; the last has none. */
  ghost predicate IsCut(parts: seq<string>, p: string) {
    && parts != []
    && Free(parts[|parts| - 1], p)
    && forall k, i: nat | 0 <= k < |parts| - 1 && i < |parts[k]| :: !Occurs(parts[k] + p, p, i)
  }

  function Cut(s: string, p: string): (parts: seq<string>)
    requires p != ""
    ensures parts != []
    decreases |s|
  {
    var i := Search(s, p, 0);
    if i < 0 then [s] else [s[..i]] + Cut(s[i + |p|..], p)
  }

  lemma JoinCons(first: string, rest: seq<string>, sep: string)
    requires rest != []
    ensures JoinWith([first] + rest, sep) == first + sep + JoinWith(rest, sep)
  {
    assert ([first] + rest)[1..] == rest;
  }

  /** The report is its parts joined by the placeholder; the result is them joined by the digest. */
  lemma {:induction false} ReplaceSwapsSeparators(s: string, p: string, d: string)
    requires p != ""
    ensures JoinWith(Cut(s, p), p) == s && JoinWith(Cut(s, p), d) == Replace(s, p, d)
    decreases |s|
  {
    var i := Search(s, p, 0);
    if i >= 0 {
      assert Occurs(s, p, i);
      var rest := s[i + |p|..];
      ReplaceSwapsSeparators(rest, p, d);
      JoinCons(s[..i], Cut(rest, p), p);
      JoinCons(s[..i], Cut(rest, p), d);
      assert s[i..i + |p|] == p;
      assert s == s[..i] + p + rest;
    }
  }

  lemma FirstPart(s: string, p: string)
    requires p != "" && Search(s, p, 0) >= 0
    ensures forall i: nat | i < Search(s, p, 0) :: !Occurs(s[..Search(s, p, 0)] + p, p, i)
  {
    var at := Search(s, p, 0);
    assert Occurs(s, p, at);
    forall i: nat | i < at ensures !Occurs(s[..at] + p, p, i) {
      assert !Occurs(s, p, i);
      var j :| 0 <= j < |p| && s[i + j] != p[j];
      assert (s[..at] + p)[i + j] == s[i + j];
    }
  }

  lemma {:induction false} CutIsCut(s: string, p: string)
    requires p != ""
    ensures IsCut(Cut(s, p), p)
    decreases |s|
  {
    var i := Search(s, p, 0);
    if i >= 0 {
      var rest := Cut(s[i + |p|..], p);
      CutIsCut(s[i + |p|..], p);
      FirstPart(s, p);
      assert Cut(s, p) == [s[..i]] + rest;
      forall k, m: nat | 0 <= k < |rest| && m < |Cut(s, p)[k]| ensures !Occurs(Cut(s, p)[k] + p, p, m) {
        if k > 0 {
          assert Cut(s, p)[k] == rest[k - 1];
        }
      }
      assert Cut(s, p)[|rest|] == rest[|rest| - 1];
    }
  }

  lemma FirstSeparator(first: string, p: string, rest: string)
    requires p != "" && forall i: nat | i < |first| :: !Occurs(first + p, p, i)
    ensures Search(first + p + rest, p, 0) == |first|
  {
    var s := first + p + rest;
    assert Occurs(s, p, |first|);
    forall i: nat | i < |first| ensures !Occurs(s, p, i) {
      assert !Occurs(first + p, p, i);
      var j :| 0 <= j < |p| && (first + p)[i + j] != p[j];
      assert s[i + j] == (first + p)[i + j];
    }
  }

  /** There is only one such way to cut the report. */
  lemma {:induction false} CutIsUnique(s: string, p: string, parts: seq<string>)
    requires p != "" && IsCut(parts, p) && JoinWith(parts, p) == s
    ensures parts == Cut(s, p)
    decreases |parts|
  {
    if |parts| > 1 {
      var rest := JoinWith(parts[1..], p);
      assert forall i: nat | i < |parts[0]| :: !Occurs(parts[0] + p, p, i);
      FirstSeparator(parts[0], p, rest);
      assert s[..|parts[0]|] == parts[0] && s[|parts[0]| + |p|..] == rest;
      assert forall k | 0 <= k < |parts| - 1 :: parts[1..][k] == parts[k + 1];
      CutIsUnique(rest, p, parts[1..]);
    } else {
      assert Free(s, p);
    }
  }

  // ---------- the digest ----------

  type Byte = b: nat | b < 256

  function LowerHex(n: nat): char
    requires n < 16
  {
    "0123456789abcdef"[n]
  }

  /** `{:x}`: no leading zero. */
  function HexByte(b: Byte): string {
    if b < 16 then [LowerHex(b)] else [LowerHex(b / 16), LowerHex(b % 16)]
  }

  function HexBytes(bytes: seq<Byte>): string {
    if bytes == [] then "" else HexBytes(bytes[..|bytes| - 1]) + HexByte(bytes[|bytes| - 1])
  }

  /** The value of a lower-case hex digit. */
  function DigitValue(c: char): nat
    requires IsHex(c)
  {
    if '0' <= c <= '9' then c as nat - '0' as nat else c as nat - 'a' as nat + 10
  }

  /** The byte in base 16, in one digit when it fits, in two without a leading zero when not. */
  predicate Spells(piece: string, b: Byte) {
    && AllHex(piece)
    && if b < 16 then |piece| == 1 && DigitValue(piece[0]) == b
       else |piece| == 2 && piece[0] != '0' && 16 * DigitValue(piece[0]) + DigitValue(piece[1]) == b
  }

  /** One piece a byte, in order. */
  predicate SpellsAll(out: string, bytes: seq<Byte>) {
    if bytes == [] then out == ""
    else
      var n := if bytes[0] < 16 then 1 else 2;
      n <= |out| && Spells(out[..n], bytes[0]) && SpellsAll(out[n..], bytes[1..])
  }

  method PanMd5Hex(digest: seq<Byte>) returns (out: string)
    ensures out == HexBytes(digest) && SpellsAll(out, digest)
  {
    out := "";
    for i := 0 to |digest|
      invariant out == HexBytes(digest[..i])
    {
      out := out + HexByte(digest[i]);
      assert digest[..i + 1][..i] == digest[..i];
    }
    assert digest[..|digest|] == digest;
    HexSpells(digest);
  }

  function SmallBytes(bytes: seq<Byte>): (n: nat)
    ensures n <= |bytes|
  {
    if bytes == [] then 0
    else SmallBytes(bytes[..|bytes| - 1]) + if bytes[|bytes| - 1] < 16 then 1 else 0
  }

  lemma LowerHexIsHex(n: nat)
    requires n < 16
    ensures IsHex(LowerHex(n))
  {
  }

  lemma HexByteIsHex(b: Byte)
    ensures AllHex(HexByte(b)) && |HexByte(b)| == if b < 16 then 1 else 2
  {
    LowerHexIsHex(b % 16);
    LowerHexIsHex(b / 16);
  }

  /** Lower-case hex digits, one short for every byte below 16. */
  lemma {:induction false} HexIsHex(bytes: seq<Byte>)
    ensures AllHex(HexBytes(bytes)) && |HexBytes(bytes)| == 2 * |bytes| - SmallBytes(bytes)
  {
    if bytes != [] {
      HexIsHex(bytes[..|bytes| - 1]);
      HexByteIsHex(bytes[|bytes| - 1]);
    }
  }

  lemma {:induction false} HexAppend(a: seq<Byte>, b: seq<Byte>)
    ensures HexBytes(a + b) == HexBytes(a) + HexBytes(b)
  {
    if b == [] {
      assert a + b == a;
    } else {
      var n := |b| - 1;
      assert (a + b)[..|a + b| - 1] == a + b[..n];
      HexAppend(a, b[..n]);
    }
  }

  lemma HexOne(b: Byte)
    ensures HexBytes([b]) == HexByte(b)
  {
    assert [b][..0] == [];
  }

  lemma HexCons(a: seq<Byte>)
    requires a != []
    ensures HexBytes(a) == HexByte(a[0]) + HexBytes(a[1..])
  {
    assert a == [a[0]] + a[1..];
    HexAppend([a[0]], a[1..]);
    HexOne(a[0]);
  }

  lemma HexTwo(x: Byte, y: Byte)
    ensures HexBytes([x, y]) == HexByte(x) + HexByte(y)
  {
    HexAppend([x], [y]);
    assert [x] + [y] == [x, y];
    HexOne(x);
    HexOne(y);
  }

  /** The digest is not the MD5 value: two values can print alike. */
  lemma DigestIsAmbiguous(rest: seq<Byte>)
    requires |rest| == 14
    ensures |[1, 17] + rest| == |[17, 1] + rest| == 16 && [1, 17] + rest != [17, 1] + rest
    ensures HexBytes([1, 17] + rest) == HexBytes([17, 1] + rest)
  {
    HexAppend([1, 17], rest);
    HexAppend([17, 1], rest);
    HexTwo(1, 17);
    HexTwo(17, 1);
    assert HexByte(1) + HexByte(17) == HexByte(17) + HexByte(1);
    assert ([1, 17] + rest)[0] != ([17, 1] + rest)[0];
  }

  lemma LowerHexReads(n: nat)
    requires n < 16
    ensures IsHex(LowerHex(n)) && DigitValue(LowerHex(n)) == n && (LowerHex(n) == '0' <==> n == 0)
  {
  }

  lemma HexByteSpells(b: Byte)
    ensures Spells(HexByte(b), b)
  {
    if b < 16 {
      LowerHexReads(b);
    } else {
      LowerHexReads(b / 16);
      LowerHexReads(b % 16);
    }
  }

  /** The print cuts into the base-16 numerals of the bytes. */
  lemma {:induction false} HexSpells(bytes: seq<Byte>)
    ensures SpellsAll(HexBytes(bytes), bytes)
  {
    if bytes != [] {
      HexCons(bytes);
      HexByteSpells(bytes[0]);
      HexSpells(bytes[1..]);
      var n := |HexByte(bytes[0])|;
      assert HexBytes(bytes)[..n] == HexByte(bytes[0]) && HexBytes(bytes)[n..] == HexBytes(bytes[1..]);
    }
  }

  lemma NumeralIsUnique(p: string, q: string, b: Byte)
    requires Spells(p, b) && Spells(q, b)
    ensures p == q
  {
    if b < 16 {
      SameDigit(p[0], q[0]);
    } else {
      SameDigit(p[0], q[0]);
      SameDigit(p[1], q[1]);
    }
  }

  lemma SameDigit(c: char, d: char)
    requires IsHex(c) && IsHex(d)
    ensures DigitValue(c) < 16 && (DigitValue(c) == DigitValue(d) ==> c == d)
  {
  }

  /** Only one text spells the bytes, so this says what the digest is. */
  lemma {:induction false} SpellingIsUnique(p: string, q: string, bytes: seq<Byte>)
    requires SpellsAll(p, bytes) && SpellsAll(q, bytes)
    ensures p == q
  {
    if bytes != [] {
      var n := if bytes[0] < 16 then 1 else 2;
      NumeralIsUnique(p[..n], q[..n], bytes[0]);
      SpellingIsUnique(p[n..], q[n..], bytes[1..]);
      assert p == p[..n] + p[n..] && q == q[..n] + q[n..];
    }
  }

  // ---------- when the digest determines the hash ----------

  predicate AllSmall(a: seq<Byte>) {
    forall j | 0 <= j < |a| :: a[j] < 16
  }

  /**
   * Every byte printed as one digit stands alone: it is 0 or the last, and the digit before it, if
   * any, is 0, so it can be joined with neither neighbour. `zero` says so of the digit before `a`.
   */
  predicate Isolated(a: seq<Byte>, zero: bool) {
    && (a != [] && a[0] < 16 ==> zero)
    && (forall j | 0 < j < |a| && a[j] < 16 :: a[j - 1] % 16 == 0)
    && (forall j | 0 <= j < |a| - 1 && a[j] < 16 :: a[j] == 0)
  }

  predicate Determined(a: seq<Byte>) {
    AllSmall(a) || Isolated(a, true)
  }

  lemma LowerHexIsInjective(m: nat, n: nat)
    requires m < 16 && n < 16 && LowerHex(m) == LowerHex(n)
    ensures m == n
  {
  }

  lemma IsolatedTail(a: seq<Byte>, zero: bool)
    requires a != [] && Isolated(a, zero)
    ensures Isolated(a[1..], a[0] % 16 == 0)
  {
    assert forall j | 0 <= j < |a[1..]| :: a[1..][j] == a[j + 1];
  }

  lemma SameFirst(x: Byte, more: string, y: Byte, rest: string)
    requires HexByte(x) + more == HexByte(y) + rest
    ensures (x < 16 && y < 16) || (x >= 16 && y >= 16) ==> x == y && more == rest
    ensures x < 16 && y >= 16 ==> x == y / 16 && more == [LowerHex(y % 16)] + rest
  {
    var s, t := HexByte(x) + more, HexByte(y) + rest;
    assert s[0] == t[0];
    if x < 16 {
      assert s[1..] == more;
      LowerHexIsInjective(x, if y < 16 then y else y / 16);
      if y < 16 {
        assert t[1..] == rest;
      } else {
        assert t[1..] == [LowerHex(y % 16)] + rest;
      }
    } else if y >= 16 {
      assert s[1] == t[1] && s[2..] == more && t[2..] == rest;
      LowerHexIsInjective(x / 16, y / 16);
      LowerHexIsInjective(x % 16, y % 16);
    }
  }

  lemma SameList(a: seq<Byte>, b: seq<Byte>)
    requires a != [] && b != [] && a[0] == b[0]
    ensures a[1..] == b[1..] ==> a == b
  {
    assert a == [a[0]] + a[1..] && b == [b[0]] + b[1..];
  }

  /** No byte string prints the same with fewer bytes, and only one with as many. */
  lemma {:induction false} Fewest(a: seq<Byte>, zero: bool, b: seq<Byte>)
    requires Isolated(a, zero) && HexBytes(a) == HexBytes(b)
    ensures |b| >= |a| && (|b| == |a| ==> a == b)
    decreases |a|, 0
  {
    if a != [] {
      HexCons(a);
      IsolatedTail(a, zero);
      assert b != [];
      HexCons(b);
      SameFirst(a[0], HexBytes(a[1..]), b[0], HexBytes(b[1..]));
      SameFirst(b[0], HexBytes(b[1..]), a[0], HexBytes(a[1..]));
      if a[0] >= 16 && b[0] < 16 {
        FewestAfter(a[0] % 16, a[1..], b[1..]);
      } else {
        LoneDigit(a, zero, b);
        Fewest(a[1..], a[0] % 16 == 0, b[1..]);
        SameList(a, b);
      }
    }
  }

  /** A digit that stands alone cannot begin a byte of two digits. */
  lemma LoneDigit(a: seq<Byte>, zero: bool, b: seq<Byte>)
    requires a != [] && b != [] && Isolated(a, zero) && (a[0] < 16 || b[0] >= 16)
    requires HexByte(a[0]) + HexBytes(a[1..]) == HexByte(b[0]) + HexBytes(b[1..])
    ensures a[0] == b[0] && HexBytes(a[1..]) == HexBytes(b[1..])
  {
    SameFirst(a[0], HexBytes(a[1..]), b[0], HexBytes(b[1..]));
    assert a[0] < 16 ==> a[0] == 0 || a[1..] == [];
  }

  /** The same with one digit before the string. */
  lemma {:induction false} FewestAfter(y: nat, a: seq<Byte>, b: seq<Byte>)
    requires y < 16 && Isolated(a, y == 0) && HexBytes(b) == [LowerHex(y)] + HexBytes(a)
    ensures |b| >= |a| + 1
    decreases |a|, 1
  {
    assert b != [];
    HexCons(b);
    SameFirst(b[0], HexBytes(b[1..]), y, HexBytes(a));
    SameFirst(y, HexBytes(a), b[0], HexBytes(b[1..]));
    if b[0] < 16 {
      Fewest(a, y == 0, b[1..]);
    } else if a != [] {
      HexCons(a);
      IsolatedTail(a, y == 0);
      SameFirst(b[0] % 16, HexBytes(b[1..]), a[0], HexBytes(a[1..]));
      assert y == b[0] / 16 != 0;
      FewestAfter(a[0] % 16, a[1..], b[1..]);
    }
  }

  lemma {:induction false} SmallIsCounted(a: seq<Byte>)
    ensures AllSmall(a) <==> SmallBytes(a) == |a|
  {
    if a != [] {
      var n := |a| - 1;
      SmallIsCounted(a[..n]);
      assert forall i | 0 <= i < n :: a[..n][i] == a[i];
    }
  }

  lemma {:induction false} SmallPrints(a: seq<Byte>, i: nat)
    requires AllSmall(a) && i < |a|
    ensures |HexBytes(a)| == |a| && HexBytes(a)[i] == LowerHex(a[i])
  {
    HexIsHex(a);
    SmallIsCounted(a);
    var n := |a| - 1;
    HexIsHex(a[..n]);
    SmallIsCounted(a[..n]);
    if i < n {
      SmallPrints(a[..n], i);
    }
  }

  lemma SmallIsDetermined(a: seq<Byte>, b: seq<Byte>)
    requires AllSmall(a) && |a| == |b| && HexBytes(a) == HexBytes(b)
    ensures a == b
  {
    HexIsHex(a);
    HexIsHex(b);
    SmallIsCounted(a);
    SmallIsCounted(b);
    forall i | 0 <= i < |a| ensures a[i] == b[i] {
      SmallPrints(a, i);
      SmallPrints(b, i);
      LowerHexIsInjective(a[i], b[i]);
    }
  }

  // ---------- and when it does not ----------

  /** One byte of two digits printed as two bytes of one. */
  function Split(a: seq<Byte>, d: nat): seq<Byte>
    requires d < |a| && a[d] >= 16
  {
    a[..d] + [a[d] / 16, a[d] % 16] + a[d + 1..]
  }

  /** Two bytes of one digit printed as one of two. */
  function Joined(a: seq<Byte>, j: nat): seq<Byte>
    requires j + 1 < |a| && 0 < a[j] < 16 && a[j + 1] < 16
  {
    a[..j] + [16 * a[j] + a[j + 1]] + a[j + 2..]
  }

  lemma HexParts(p: seq<Byte>, q: seq<Byte>, r: seq<Byte>)
    ensures HexBytes(p + q + r) == HexBytes(p) + HexBytes(q) + HexBytes(r)
  {
    HexAppend(p + q, r);
    HexAppend(p, q);
  }

  lemma DigitsOf(x: nat, y: nat)
    requires x < 16 && y < 16
    ensures (16 * x + y) / 16 == x && (16 * x + y) % 16 == y
  {
  }

  /** Two digits, as one byte or as two. */
  lemma TwoDigits(x: Byte, y: Byte, c: Byte)
    requires 0 < x < 16 && y < 16 && c >= 16 && c / 16 == x && c % 16 == y
    ensures HexBytes([c]) == HexBytes([x, y])
  {
    HexOne(c);
    HexTwo(x, y);
  }

  lemma SameMiddle(p: seq<Byte>, q: seq<Byte>, q': seq<Byte>, r: seq<Byte>)
    requires HexBytes(q) == HexBytes(q')
    ensures HexBytes(p + q + r) == HexBytes(p + q' + r)
  {
    HexParts(p, q, r);
    HexParts(p, q', r);
  }

  lemma SplitPrintsSame(a: seq<Byte>, d: nat)
    requires d < |a| && a[d] >= 16
    ensures HexBytes(Split(a, d)) == HexBytes(a) && |Split(a, d)| == |a| + 1
  {
    assert a == a[..d] + [a[d]] + a[d + 1..];
    TwoDigits(a[d] / 16, a[d] % 16, a[d]);
    SameMiddle(a[..d], [a[d]], [a[d] / 16, a[d] % 16], a[d + 1..]);
  }

  lemma AroundTwo(a: seq<Byte>, j: nat)
    requires j + 1 < |a|
    ensures a == a[..j] + [a[j], a[j + 1]] + a[j + 2..]
  {
  }

  lemma PairByte(x: Byte, y: Byte) returns (c: Byte)
    requires 0 < x < 16 && y < 16
    ensures c == 16 * x + y && c >= 16 && c / 16 == x && c % 16 == y
  {
    DigitsOf(x, y);
    c := 16 * x + y;
  }

  lemma JoinTwo(x: Byte, y: Byte)
    requires 0 < x < 16 && y < 16
    ensures 16 * x + y < 256 && HexBytes([16 * x + y]) == HexBytes([x, y])
  {
    var c := PairByte(x, y);
    TwoDigits(x, y, c);
  }

  lemma JoinedPrintsSame(a: seq<Byte>, j: nat)
    requires j + 1 < |a| && 0 < a[j] < 16 && a[j + 1] < 16
    ensures HexBytes(Joined(a, j)) == HexBytes(a) && |Joined(a, j)| == |a| - 1
  {
    JoinTwo(a[j], a[j + 1]);
    AroundTwo(a, j);
    SameMiddle(a[..j], [a[j], a[j + 1]], [16 * a[j] + a[j + 1]], a[j + 2..]);
  }

  /** Split one byte, join two: the same length, the same print. */
  lemma Shifted(a: seq<Byte>, d: nat, j: nat)
    requires d < |a| && a[d] >= 16 && j + 1 < |Split(a, d)|
    requires 0 < Split(a, d)[j] < 16 && Split(a, d)[j + 1] < 16
    ensures |Joined(Split(a, d), j)| == |a| && HexBytes(Joined(Split(a, d), j)) == HexBytes(a)
  {
    SplitPrintsSame(a, d);
    JoinedPrintsSame(Split(a, d), j);
  }

  lemma OtherBySplitBefore(a: seq<Byte>, d: nat, j: nat) returns (b: seq<Byte>)
    requires d < j && j + 1 < |a| && a[d] >= 16 && 0 < a[j] < 16 && a[j + 1] < 16
    ensures |b| == |a| && b != a && HexBytes(b) == HexBytes(a)
  {
    Shifted(a, d, j + 1);
    b := Joined(Split(a, d), j + 1);
    assert b[d] < 16;
  }

  lemma OtherBySplitAfter(a: seq<Byte>, d: nat, j: nat) returns (b: seq<Byte>)
    requires j < d < |a| && a[d] >= 16 && 0 < a[j] < 16 && (d == j + 1 || a[j + 1] < 16)
    ensures |b| == |a| && b != a && HexBytes(b) == HexBytes(a)
  {
    Shifted(a, d, j);
    b := Joined(Split(a, d), j);
    assert b[j] >= 16;
  }

  /** A nonzero lone digit that is not the last byte can be joined with what follows. */
  lemma OtherAfterDigit(a: seq<Byte>, j: nat) returns (b: seq<Byte>)
    requires j + 1 < |a| && 0 < a[j] < 16 && !AllSmall(a)
    ensures |b| == |a| && b != a && HexBytes(b) == HexBytes(a)
  {
    if a[j + 1] >= 16 {
      b := OtherBySplitAfter(a, j + 1, j);
    } else {
      var d :| 0 <= d < |a| && a[d] >= 16;
      if d < j {
        b := OtherBySplitBefore(a, d, j);
      } else {
        b := OtherBySplitAfter(a, d, j);
      }
    }
  }

  /** The second digit of a byte can be joined with a lone digit after it, unless it is 0. */
  lemma OtherBeforeDigit(a: seq<Byte>, j: nat) returns (b: seq<Byte>)
    requires 0 < j < |a| && a[j] < 16 && a[j - 1] >= 16 && a[j - 1] % 16 != 0
    ensures |b| == |a| && b != a && HexBytes(b) == HexBytes(a)
  {
    Shifted(a, j - 1, j);
    b := Joined(Split(a, j - 1), j);
    assert b[j - 1] < 16;
  }

  lemma Other(a: seq<Byte>) returns (b: seq<Byte>)
    requires !Determined(a)
    ensures |b| == |a| && b != a && HexBytes(b) == HexBytes(a)
  {
    if j :| 0 <= j < |a| - 1 && 0 < a[j] < 16 {
      b := OtherAfterDigit(a, j);
    } else {
      var j :| 0 < j < |a| && a[j] < 16 && a[j - 1] % 16 != 0;
      b := OtherBeforeDigit(a, j);
    }
  }

  /**
   * Main result. The digest determines the hash exactly when every byte prints as one digit, or every
   * byte that does stands alone; so it does when none does.
   */
  lemma DeterminedIff(a: seq<Byte>)
    ensures (forall b: seq<Byte> | |b| == |a| && HexBytes(b) == HexBytes(a) :: b == a) <==> Determined(a)
    ensures SmallBytes(a) == 0 ==> Determined(a)
  {
    if AllSmall(a) {
      forall b: seq<Byte> | |b| == |a| && HexBytes(b) == HexBytes(a) ensures b == a {
        SmallIsDetermined(a, b);
      }
    } else if Isolated(a, true) {
      forall b: seq<Byte> | |b| == |a| && HexBytes(b) == HexBytes(a) ensures b == a {
        Fewest(a, true, b);
      }
    } else {
      var b := Other(a);
    }
    NoneIsIsolated(a);
  }

  lemma {:induction false} NoneIsIsolated(a: seq<Byte>)
    ensures SmallBytes(a) == 0 ==> forall j | 0 <= j < |a| :: a[j] >= 16
  {
    if a != [] {
      var n := |a| - 1;
      NoneIsIsolated(a[..n]);
      assert forall j | 0 <= j < n :: a[..n][j] == a[j];
    }
  }

  // ---------- the request ----------

  /** `md5` stands for the hash: any function to 16 bytes. */
  method BuildCscData(report: string, md5: string -> seq<Byte>) returns (digest: string, data: string)
    requires |md5(report)| == 16
    ensures 16 <= |digest| <= 32 && AllHex(digest)
    ensures digest == HexBytes(md5(report)) && SpellsAll(digest, md5(report))
    ensures Free(data, DIGEST_PLACEHOLDER)
    ensures IsCut(Cut(report, DIGEST_PLACEHOLDER), DIGEST_PLACEHOLDER)
    ensures report == JoinWith(Cut(report, DIGEST_PLACEHOLDER), DIGEST_PLACEHOLDER)
    ensures data == JoinWith(Cut(report, DIGEST_PLACEHOLDER), digest)
  {
    digest := PanMd5Hex(md5(report));
    data := Replace(report, DIGEST_PLACEHOLDER, digest);
    HexIsHex(md5(report));
    ReplacedIsFree(report, DIGEST_PLACEHOLDER, digest);
    ReplaceSwapsSeparators(report, DIGEST_PLACEHOLDER, digest);
    CutIsCut(report, DIGEST_PLACEHOLDER);
  }
}
