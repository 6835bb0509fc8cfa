/** A member of a PDF set (class PDFMember in parton/pdf.py): the name of
    its data file, and the split of that file into a metadata header and
    the raw text of its subgrid blocks. */
module Member {
  import opened Base

  // ---------------------------------------------------------------------
  // File name: {pdfdir}/{name}/{name}_{member:04d}.dat
  // ---------------------------------------------------------------------

  predicate IsDigit(c: char) { '0' <= c <= '9' }

  predicate AllDigits(s: string) { forall i :: 0 <= i < |s| ==> IsDigit(s[i]) }

  function DigitChar(d: nat): (c: char)
    requires d < 10
    ensures IsDigit(c) && c as int - '0' as int == d
  {
    (('0' as int) + d) as char
  }

  /** The decimal digits of n, most significant first, without leading zeros. */
  function Decimal(n: nat): (s: string)
    ensures 1 <= |s| && AllDigits(s)
    ensures n > 0 ==> s[0] != '0'
  {
    if n < 10 then [DigitChar(n)] else Decimal(n / 10) + [DigitChar(n % 10)]
  }

  /** The number a string of decimal digits denotes. */
  function ParseDecimal(s: string): nat
    requires AllDigits(s)
  {
    if s == [] then 0
    else ParseDecimal(s[..|s| - 1]) * 10 + (s[|s| - 1] as int - '0' as int)
  }

  /** s left-padded with '0' to at least `width` characters. */
  function ZeroPad(s: string, width: nat): (r: string)
    ensures |r| == if |s| < width then width else |s|
    ensures r[|r| - |s|..] == s
    ensures forall i :: 0 <= i < |r| - |s| ==> r[i] == '0'
  {
    if |s| < width then seq(width - |s|, _ => '0') + s else s
  }

  /** Python's '{:04d}'.format(m): at least four characters, zero padded,
      with the minus sign of a negative number counted in the width. */
  function Format04(m: int): (s: string)
    ensures |s| >= 4
    ensures s[0] == '-' <==> m < 0
    ensures m >= 0 ==> AllDigits(s)
    ensures m < 0 ==> AllDigits(s[1..])
  {
    if m >= 0 then ZeroPadDigits(Decimal(m), 4); ZeroPad(Decimal(m), 4)
    else ZeroPadDigits(Decimal(-m), 3); "-" + ZeroPad(Decimal(-m), 3)
  }

  lemma ZeroPadDigits(s: string, width: nat)
    requires AllDigits(s) && |s| >= 1
    ensures AllDigits(ZeroPad(s, width)) && |ZeroPad(s, width)| >= 1
  {
    var r := ZeroPad(s, width);
    forall i | 0 <= i < |r| ensures IsDigit(r[i]) {
      if i >= |r| - |s| {
        assert r[i] == r[|r| - |s|..][i - (|r| - |s|)];
      }
    }
  }

  lemma {:induction false} ParseDecimalAppend(s: string, c: char)
    requires AllDigits(s) && IsDigit(c)
    ensures ParseDecimal(s + [c]) == ParseDecimal(s) * 10 + (c as int - '0' as int)
  {
    assert (s + [c])[..|s + [c]| - 1] == s;
  }

  lemma {:induction false} DecimalRoundTrip(n: nat)
    ensures ParseDecimal(Decimal(n)) == n
  {
    if n >= 10 {
      DecimalRoundTrip(n / 10);
      ParseDecimalAppend(Decimal(n / 10), DigitChar(n % 10));
    } else {
      assert Decimal(n)[..0] == [];
    }
  }

  lemma {:induction false} ParseLeadingZeros(s: string, k: nat)
    requires AllDigits(s)
    ensures AllDigits(seq(k, _ => '0') + s)
    ensures ParseDecimal(seq(k, _ => '0') + s) == ParseDecimal(s)
    decreases |s|
  {
    var z := seq(k, _ => '0');
    if s == [] {
      assert z + s == z;
      ZerosParse(k);
    } else {
      var init := s[..|s| - 1];
      assert z + s == (z + init) + [s[|s| - 1]];
      ParseLeadingZeros(init, k);
      ParseDecimalAppend(z + init, s[|s| - 1]);
      ParseDecimalAppend(init, s[|s| - 1]);
      assert init + [s[|s| - 1]] == s;
    }
  }

  lemma {:induction false} ZerosParse(k: nat)
    ensures AllDigits(seq(k, _ => '0'))
    ensures ParseDecimal(seq(k, _ => '0')) == 0
  {
    if k > 0 {
      var z := seq(k, _ => '0');
      assert z[..k - 1] == seq(k - 1, _ => '0');
      ZerosParse(k - 1);
    }
  }

  /** The member index can be read back from the four-digit field, which
      is exactly four characters for indices 0 to 9999. */
  lemma Format04RoundTrip(m: int)
    ensures m >= 0 ==> AllDigits(Format04(m)) && ParseDecimal(Format04(m)) == m
    ensures m < 0 ==> Format04(m)[0] == '-' && AllDigits(Format04(m)[1..])
                      && ParseDecimal(Format04(m)[1..]) == -m
    ensures 0 <= m <= 9999 ==> |Format04(m)| == 4
    ensures |Format04(m)| >= 4
  {
    var n: nat := if m >= 0 then m else -m;
    var w := if m >= 0 then 4 else 3;
    var d := Decimal(n);
    DecimalRoundTrip(n);
    if |d| < w {
      ParseLeadingZeros(d, w - |d|);
    }
    if m < 0 {
      assert Format04(m)[1..] == ZeroPad(d, 3);
    }
    if 0 <= m <= 9999 {
      assert Pow10(4) == 10000;
      DecimalShort(m, 4);
    }
  }

  function Pow10(k: nat): nat
  {
    if k == 0 then 1 else 10 * Pow10(k - 1)
  }

  lemma {:induction false} DecimalShort(n: nat, k: nat)
    requires 1 <= k && n < Pow10(k)
    ensures |Decimal(n)| <= k
  {
    if n >= 10 {
      assert k > 1;
      assert n / 10 < Pow10(k - 1);
      DecimalShort(n / 10, k - 1);
    }
  }

  /** posixpath.join of two components: an absolute b replaces a;
      otherwise a, then a "/" unless a is empty or already ends in one,
      then b. */
  function PathJoin(a: string, b: string): (r: string)
    ensures |b| > 0 && b[0] == '/' ==> r == b
    ensures |b| <= |r| && r[|r| - |b|..] == b
    ensures !(|b| > 0 && b[0] == '/') ==>
              var sep := if a != [] && a[|a| - 1] != '/' then 1 else 0;
              |r| == |a| + sep + |b| && r[..|a|] == a && (sep == 1 ==> r[|a|] == '/')
  {
    if |b| > 0 && b[0] == '/' then b
    else if a == [] || a[|a| - 1] == '/' then a + b
    else a + "/" + b
  }

  /** The leaf name of a member's data file: name_NNNN.dat, the set's
      name, an underscore, the four-digit member field and the suffix. */
  function LeafName(name: string, member: int): (r: string)
    ensures |r| == |name| + 1 + |Format04(member)| + 4
    ensures r[..|name|] == name && r[|name|] == '_'
    ensures r[|name| + 1..|r| - 4] == Format04(member)
    ensures r[|r| - 4..] == ".dat"
  {
    name + "_" + Format04(member) + ".dat"
  }

  /** PDFMember.filename: the data file path of member `member` of set `name`. */
  function Filename(pdfdir: string, name: string, member: int): (path: string)
    ensures |LeafName(name, member)| <= |path|
    ensures path[|path| - |LeafName(name, member)|..] == LeafName(name, member)
    ensures pdfdir != [] && pdfdir[|pdfdir| - 1] != '/' && name != [] && name[0] != '/'
            && name[|name| - 1] != '/'
            ==> path == pdfdir + "/" + name + "/" + LeafName(name, member)
  {
    PathJoin(PathJoin(pdfdir, name), LeafName(name, member))
  }

  /** The file of member 1 of CT10 is CT10/CT10_0001.dat under the data directory. */
  lemma FilenameCT10(pdfdir: string)
    requires pdfdir != [] && pdfdir[|pdfdir| - 1] != '/'
    ensures Filename(pdfdir, "CT10", 1) == pdfdir + "/" + "CT10" + "/" + "CT10_0001.dat"
  {
    LeafCT10();
  }

  lemma LeafCT10()
    ensures LeafName("CT10", 1) == "CT10_0001.dat"
  {
    Format04One();
  }

  lemma Format04One()
    ensures Format04(1) == "0001"
  {
    assert Decimal(1) == "1";
    assert seq(3, _ => '0') == "000";
  }

  // ---------------------------------------------------------------------
  // Splitting a member file into blocks: re.split(r'\n\s*---\s*\n?', ...)
  // ---------------------------------------------------------------------

  /** Python's str.isspace, which decides both `\s` in a str pattern and
      what str.strip removes. */
  predicate IsSpace(c: char)
  {
    var n := c as int;
    (9 <= n <= 13) || (28 <= n <= 32) || n == 0x85 || n == 0xA0 || n == 0x1680
    || (0x2000 <= n <= 0x200A) || n == 0x2028 || n == 0x2029 || n == 0x202F
    || n == 0x205F || n == 0x3000
  }

  predicate Blank(s: string) { forall i :: 0 <= i < |s| ==> IsSpace(s[i]) }

  /** s[lo..hi] is whitespace only. */
  predicate SpaceSpan(s: string, lo: nat, hi: nat)
    requires lo <= hi <= |s|
  {
    forall i :: lo <= i < hi ==> IsSpace(s[i])
  }

  /** The length of the longest run of whitespace at the start of s. */
  function LeadingSpaces(s: string): (k: nat)
    ensures k <= |s|
    ensures forall i :: 0 <= i < k ==> IsSpace(s[i])
    ensures k < |s| ==> !IsSpace(s[k])
  {
    if s == [] || !IsSpace(s[0]) then 0 else 1 + LeadingSpaces(s[1..])
  }

  /** The length of the longest run of whitespace at the end of s. */
  function TrailingSpaces(s: string): (k: nat)
    ensures k <= |s|
    ensures forall i :: |s| - k <= i < |s| ==> IsSpace(s[i])
    ensures k < |s| ==> !IsSpace(s[|s| - k - 1])
  {
    if s == [] || !IsSpace(s[|s| - 1]) then 0 else 1 + TrailingSpaces(s[..|s| - 1])
  }

  /** str.strip: a middle slice of s; what is cut off on either side is
      whitespace, and what is left neither starts nor ends with it. The
      result is empty exactly when s is whitespace only. */
  function Strip(s: string): (r: string)
    ensures exists a, b :: 0 <= a <= b <= |s| && r == s[a..b] && Blank(s[..a]) && Blank(s[b..])
    ensures r != [] ==> !IsSpace(r[0]) && !IsSpace(r[|r| - 1])
    ensures r == [] <==> Blank(s)
  {
    var a := LeadingSpaces(s);
    var t := s[a..];
    var k := TrailingSpaces(t);
    StripCut(s, a, t, k);
    t[..|t| - k]
  }

  /** Cutting a leading run of a whitespace characters ending before a
      non-space, and then a trailing run of k, leaves the middle slice. */
  lemma StripCut(s: string, a: nat, t: string, k: nat)
    requires a <= |s| && SpaceSpan(s, 0, a) && (a < |s| ==> !IsSpace(s[a]))
    requires t == s[a..]
    requires k <= |t| && SpaceSpan(t, |t| - k, |t|) && (k < |t| ==> !IsSpace(t[|t| - k - 1]))
    ensures a <= |s| - k && t[..|t| - k] == s[a..|s| - k]
    ensures Blank(s[..a]) && Blank(s[|s| - k..])
    ensures t[..|t| - k] == [] ==> Blank(s)
    ensures t[..|t| - k] != [] ==> !IsSpace(s[a]) && !IsSpace(s[|s| - k - 1])
  {
    SpanBlank(s, 0, a);
    assert s[0..a] == s[..a];
    SpanBlank(t, |t| - k, |t|);
    assert |t| == |s| - a;
    assert s[|s| - k..] == t[|t| - k..];
    if |t| == k {
      assert s[..a] == s;
    } else {
      var j := |t| - k - 1;
      assert !IsSpace(t[j]);
      assert t[j] == s[a + j];
      assert a + j == |s| - k - 1;
    }
  }

  lemma SpanBlank(s: string, lo: nat, hi: nat)
    requires lo <= hi <= |s| && SpaceSpan(s, lo, hi)
    ensures Blank(s[lo..hi])
  {
    var u := s[lo..hi];
    forall i | 0 <= i < |u| ensures IsSpace(u[i]) { assert u[i] == s[lo + i]; }
  }

  /** The length of a match of the block separator `\n\s*---\s*\n?` at the
      start of t. Both `\s*` are greedy and `\s` includes the newline, so
      the first run is taken whole before "---", the second run swallows any
      blank lines after it, and the optional newline then matches nothing. */
  function SepAt(t: string): (r: Option<nat>)
    ensures r.Some? ==> 4 <= r.value <= |t|
  {
    if |t| == 0 || t[0] != '\n' then None
    else
      var j := 1 + LeadingSpaces(t[1..]);
      if j + 3 <= |t| && t[j] == '-' && t[j + 1] == '-' && t[j + 2] == '-' then Some(j + 3 + LeadingSpaces(t[j + 3..]))
      else None
  }

  /** No separator match starts anywhere in s. */
  predicate SeparatorFree(s: string)
  {
    forall q {:trigger SepAt(s[q..])} :: 0 <= q < |s| ==> SepAt(s[q..]).None?
  }

  /** The leftmost separator match at or after p, as (start, end). */
  function FindSep(t: string, p: nat): (r: Option<(nat, nat)>)
    requires p <= |t|
    ensures r.Some? ==> p <= r.value.0 && r.value.0 + 4 <= r.value.1 <= |t|
                        && SepAt(t[r.value.0..]) == Some(r.value.1 - r.value.0)
    ensures forall q {:trigger SepAt(t[q..])} :: p <= q < (if r.Some? then r.value.0 else |t|) ==> SepAt(t[q..]).None?
    decreases |t| - p
  {
    if p == |t| then None
    else
      var here := SepAt(t[p..]);
      if here.Some? then Some((p, p + here.value))
      else
        var r := FindSep(t, p + 1);
        NoSepExtend(t, p, if r.Some? then r.value.0 else |t|);
        r
  }

  /** A stretch without separator matches grows by a position where none starts. */
  lemma NoSepExtend(t: string, p: nat, e: nat)
    requires p < e <= |t| && SepAt(t[p..]).None?
    requires forall q {:trigger SepAt(t[q..])} :: p + 1 <= q < e ==> SepAt(t[q..]).None?
    ensures forall q {:trigger SepAt(t[q..])} :: p <= q < e ==> SepAt(t[q..]).None?
  {
  }

  /** re.split with the separator pattern: the text between successive
      leftmost non-overlapping matches. */
  function Split(t: string): (blocks: seq<string>)
    ensures |blocks| >= 1
    ensures |blocks[0]| <= |t| && blocks[0] == t[..|blocks[0]|]
    ensures |blocks| == 1 <==> SeparatorFree(t)
    ensures |blocks| == 1 ==> blocks[0] == t
    decreases |t|
  {
    match FindSep(t, 0)
    case None => [t]
    case Some((p, e)) => [t[..p]] + Split(t[e..])
  }

  lemma LeadingSpacesPrefix(u: string, v: string)
    requires |u| <= |v| && u == v[..|u|] && LeadingSpaces(u) < |u|
    ensures LeadingSpaces(v) == LeadingSpaces(u)
  {
    var k := LeadingSpaces(u);
    assert forall i :: 0 <= i <= k ==> v[i] == u[i];
  }

  /** A separator match inside a prefix of t is a separator match in t. */
  lemma SepAtPrefix(u: string, v: string)
    requires |u| <= |v| && u == v[..|u|] && SepAt(u).Some?
    ensures SepAt(v).Some?
  {
    var j := 1 + LeadingSpaces(u[1..]);
    assert j + 3 <= |u| && u[j..j + 3] == "---";
    assert u[1..] == v[1..][..|u| - 1];
    LeadingSpacesPrefix(u[1..], v[1..]);
    assert v[j..j + 3] == u[j..j + 3];
  }

  /** No block that Split returns contains a separator. */
  lemma {:induction false} SplitSeparatorFree(t: string)
    ensures forall i :: 0 <= i < |Split(t)| ==> SeparatorFree(Split(t)[i])
    decreases |t|
  {
    match FindSep(t, 0)
    case None =>
    case Some((p, e)) =>
      var b := t[..p];
      forall q | 0 <= q < |b| ensures SepAt(b[q..]).None? {
        if SepAt(b[q..]).Some? {
          assert b[q..] == t[q..][..|b[q..]|];
          SepAtPrefix(b[q..], t[q..]);
          assert false;
        }
      }
      SplitSeparatorFree(t[e..]);
      assert Split(t) == [b] + Split(t[e..]);
  }

  /** s does not end in a newline followed only by whitespace, which the
      `\n\s*` of a separator right after s would otherwise absorb. */
  predicate NoOpenTail(s: string)
  {
    forall q :: 0 <= q < |s| && s[q] == '\n' ==> !Blank(s[q + 1..])
  }

  /** Block a followed by a canonical separator line and the rest b splits
      into a and the blocks of b. */
  lemma SplitJoin(a: string, b: string)
    requires SeparatorFree(a) && NoOpenTail(a)
    requires b == [] || !IsSpace(b[0])
    ensures Split(a + "\n---\n" + b) == [a] + Split(b)
  {
    var s := a + "\n---\n" + b;
    var n := |a|;
    forall q | 0 <= q < n ensures SepAt(s[q..]).None? {
      NoSepBefore(a, b, q);
    }
    assert s[n..] == "\n---\n" + b;
    SepAtSeparator(b);
    FindSepAt(s, 0, n);
    assert s[..n] == a;
    assert s[n + 5..] == b;
  }

  /** A separator line followed by text that does not start with
      whitespace matches exactly the five characters of the line. */
  lemma SepAtSeparator(b: string)
    requires b == [] || !IsSpace(b[0])
    ensures SepAt("\n---\n" + b) == Some(5)
  {
    var t := "\n---\n" + b;
    assert t[1..] == "---\n" + b;
    assert LeadingSpaces(t[1..]) == 0;
    assert t[4..] == "\n" + b;
    assert t[4..][1..] == b;
    if b != [] { assert t[4..][1] == b[0]; }
    assert LeadingSpaces(t[4..]) == 1;
  }

  lemma {:induction false} FindSepAt(t: string, p: nat, n: nat)
    requires p <= n < |t|
    requires forall q {:trigger SepAt(t[q..])} :: p <= q < n ==> SepAt(t[q..]).None?
    requires SepAt(t[n..]).Some?
    ensures FindSep(t, p) == Some((n, n + SepAt(t[n..]).value))
    decreases n - p
  {
    if p < n {
      FindSepSkip(t, p);
      FindSepAt(t, p + 1, n);
    } else {
      FindSepHere(t, p);
    }
  }

  lemma FindSepSkip(t: string, p: nat)
    requires p < |t| && SepAt(t[p..]).None?
    ensures FindSep(t, p) == FindSep(t, p + 1)
  {
  }

  lemma FindSepHere(t: string, p: nat)
    requires p < |t| && SepAt(t[p..]).Some?
    ensures FindSep(t, p) == Some((p, p + SepAt(t[p..]).value))
  {
  }

  lemma NoSepBefore(a: string, b: string, q: nat)
    requires SeparatorFree(a) && NoOpenTail(a)
    requires q < |a|
    ensures SepAt((a + "\n---\n" + b)[q..]).None?
  {
    var s := a + "\n---\n" + b;
    var v := s[q..];
    if SepAt(v).Some? {
      var k := LeadingSpaces(v[1..]);
      assert SpaceSpan(s, q + 1, q + 1 + k) by {
        assert forall i :: q + 1 <= i < q + 1 + k ==> v[1..][i - q - 1] == s[i];
      }
      assert v[1 + k..4 + k] == "---";
      assert s[q + 1 + k] == '-' && s[q + 2 + k] == '-' && s[q + 3 + k] == '-' by {
        assert v[1 + k..4 + k][0] == s[q + 1 + k];
        assert v[1 + k..4 + k][1] == s[q + 2 + k];
        assert v[1 + k..4 + k][2] == s[q + 3 + k];
      }
      assert s[|a|] == '\n';
      if q + 1 + k >= |a| {
        OpenTail(a, q, s, k);
      } else if q + 4 + k <= |a| {
        SepInside(a, q, s, k);
      }
    }
  }

  lemma OpenTail(a: string, q: nat, s: string, k: nat)
    requires q < |a| <= |s| && a == s[..|a|] && a[q] == '\n'
    requires q + 1 + k >= |a|
    requires q + 1 + k <= |s| && SpaceSpan(s, q + 1, q + 1 + k)
    ensures !NoOpenTail(a)
  {
    assert forall i :: q + 1 <= i < |a| ==> a[q + 1..][i - q - 1] == s[i];
    assert Blank(a[q + 1..]);
  }

  lemma SepInside(a: string, q: nat, s: string, k: nat)
    requires q + 4 + k <= |a| <= |s| && a == s[..|a|] && a[q] == '\n'
    requires SpaceSpan(s, q + 1, q + 1 + k)
    requires !IsSpace(s[q + 1 + k])
    requires s[q + 1 + k] == '-' && s[q + 2 + k] == '-' && s[q + 3 + k] == '-'
    ensures !SeparatorFree(a)
  {
    var u := a[q..];
    var w := u[1..];
    assert forall i :: q + 1 <= i <= q + 1 + k ==> w[i - q - 1] == s[i];
    assert LeadingSpaces(w) == k;
    assert u[1 + k..4 + k] == "---" by {
      assert u[1 + k] == s[q + 1 + k] && u[2 + k] == s[q + 2 + k] && u[3 + k] == s[q + 3 + k];
    }
    assert SepAt(u).Some?;
  }

  /** The text of a member file written as blocks joined by "---" lines. */
  function Chain(blocks: seq<string>): string
    requires |blocks| >= 1
  {
    if |blocks| == 1 then blocks[0] else blocks[0] + "\n---\n" + Chain(blocks[1..])
  }

  /** Blocks that can be written between separator lines and read back:
      none contains a separator, none but the last ends in an open blank
      line, and every block after the first starts with a character other
      than whitespace, except that the last may be empty (the `\s*` after a
      separator would otherwise swallow the start of the block). */
  predicate Writable(blocks: seq<string>)
  {
    && (forall i :: 0 <= i < |blocks| ==> SeparatorFree(blocks[i]))
    && (forall i :: 0 <= i < |blocks| - 1 ==> NoOpenTail(blocks[i]))
    && (forall i :: 0 < i < |blocks| - 1 ==> StartsSolid(blocks[i]))
    && (|blocks| > 1 ==> blocks[|blocks| - 1] == [] || StartsSolid(blocks[|blocks| - 1]))
  }

  predicate StartsSolid(s: string) { s != [] && !IsSpace(s[0]) }

  /** Splitting undoes writing blocks with separator lines between them. */
  lemma {:induction false} SplitChain(blocks: seq<string>)
    requires |blocks| >= 1 && Writable(blocks)
    ensures Split(Chain(blocks)) == blocks
    decreases |blocks|
  {
    if |blocks| == 1 {
      FindSepNone(blocks[0], 0);
    } else {
      WritableTail(blocks);
      SplitChain(blocks[1..]);
      SplitChainStep(blocks);
    }
  }

  lemma WritableTail(blocks: seq<string>)
    requires |blocks| > 1 && Writable(blocks)
    ensures Writable(blocks[1..])
    ensures SeparatorFree(blocks[0]) && NoOpenTail(blocks[0])
    ensures |blocks| > 2 ==> StartsSolid(blocks[1])
    ensures |blocks| == 2 ==> blocks[1] == [] || StartsSolid(blocks[1])
  {
    var rest := blocks[1..];
    assert forall i :: 0 <= i < |rest| ==> rest[i] == blocks[i + 1];
  }

  lemma SplitChainStep(blocks: seq<string>)
    requires |blocks| > 1
    requires SeparatorFree(blocks[0]) && NoOpenTail(blocks[0])
    requires |blocks| > 2 ==> StartsSolid(blocks[1])
    requires |blocks| == 2 ==> blocks[1] == [] || StartsSolid(blocks[1])
    requires Split(Chain(blocks[1..])) == blocks[1..]
    ensures Split(Chain(blocks)) == blocks
  {
    var rest := blocks[1..];
    ChainStart(rest);
    assert Chain(blocks) == blocks[0] + "\n---\n" + Chain(rest);
    SplitJoin(blocks[0], Chain(rest));
    assert [blocks[0]] + rest == blocks;
  }

  lemma ChainStart(blocks: seq<string>)
    requires |blocks| >= 1
    requires |blocks| > 1 ==> StartsSolid(blocks[0])
    requires |blocks| == 1 ==> blocks[0] == [] || StartsSolid(blocks[0])
    ensures Chain(blocks) == [] || StartsSolid(Chain(blocks))
  {
    if |blocks| > 1 {
      assert Chain(blocks) == blocks[0] + ("\n---\n" + Chain(blocks[1..]));
      assert Chain(blocks)[0] == blocks[0][0];
    }
  }

  lemma {:induction false} FindSepNone(t: string, p: nat)
    requires p <= |t| && forall q {:trigger SepAt(t[q..])} :: p <= q < |t| ==> SepAt(t[q..]).None?
    ensures FindSep(t, p).None?
    decreases |t| - p
  {
    if p < |t| { FindSepNone(t, p + 1); }
  }

  // ---------------------------------------------------------------------
  // PDFMember.load: metadata block and subgrid blocks
  // ---------------------------------------------------------------------

  /** The subgrid blocks among the blocks of a member file: all but the
      first (the metadata), and without a whitespace-only last block when
      there is more than one block, in file order. */
  function SelectGrids(blocks: seq<string>): (grids: seq<string>)
    requires |blocks| >= 1
    ensures |grids| == if |blocks| > 1 && Blank(blocks[|blocks| - 1]) then |blocks| - 2
                       else |blocks| - 1
    ensures forall i :: 0 <= i < |grids| ==> grids[i] == blocks[i + 1]
  {
    if |blocks| > 1 && Strip(blocks[|blocks| - 1]) == [] then blocks[1..|blocks| - 1]
    else blocks[1..]
  }

  /** PDFMember.load on the contents of the data file: the metadata block
      (which must parse as YAML) and the raw subgrid blocks. */
  function Load(tok: Tokenizer, contents: string): (r: Result<(string, seq<string>)>)
    ensures r.Ok? <==> tok.yaml(Split(contents)[0])
    ensures r.Err? ==> r.error == ParseError
    ensures r.Ok? ==> r.value.0 == Split(contents)[0]
                      && r.value.1 == SelectGrids(Split(contents))
  {
    var blocks := Split(contents);
    if !tok.yaml(blocks[0]) then Err(ParseError) else Ok((blocks[0], SelectGrids(blocks)))
  }

  /** A file written as a metadata header and subgrid blocks, each followed
      by a separator line, loads back as that header and those blocks. */
  lemma LoadChain(tok: Tokenizer, meta: string, grids: seq<string>)
    requires Writable([meta] + grids + [""]) && tok.yaml(meta)
    ensures Load(tok, Chain([meta] + grids + [""])) == Ok((meta, grids))
  {
    var blocks := [meta] + grids + [""];
    SplitChain(blocks);
    assert Blank(blocks[|blocks| - 1]);
    assert blocks[1..|blocks| - 1] == grids;
  }
}
