/** ETags (notebook-service/app/etags.py) and their comparison with If-None-Match
    (section 13.1.2 of RFC 9110). */
module Etag {

  function Digit(d: nat): char
    requires d < 10
  {
    '0' + d as char
  }

  predicate IsDigit(c: char) {
    '0' <= c <= '9'
  }

  /** Decimal notation. */
  function Decimal(n: nat): (r: string)
    ensures |r| > 0 && forall c <- r :: IsDigit(c)
  {
    if n < 10 then [Digit(n)] else Decimal(n / 10) + [Digit(n % 10)]
  }

  function FormatEtag(id: string, revision: nat): string {
    "\"" + id + "-r" + Decimal(revision) + "\""
  }

  function Value(digits: string): nat {
    if digits == "" then 0
    else
      var last := digits[|digits| - 1];
      10 * Value(digits[..|digits| - 1]) + (if IsDigit(last) then (last - '0') as nat else 0)
  }

  lemma {:induction false} ValueOfDecimal(n: nat)
    ensures Value(Decimal(n)) == n
  {
    if n >= 10 {
      ValueOfDecimal(n / 10);
      assert Decimal(n)[..|Decimal(n)| - 1] == Decimal(n / 10);
    }
  }

  /** A run of digits after a last 'r' is delimited by it, whatever comes before. */
  lemma {:induction false} SameTail(a: string, b: string, d: string, e: string)
    requires a + "r" + d == b + "r" + e
    requires (forall c <- d :: IsDigit(c)) && forall c <- e :: IsDigit(c)
    ensures a == b && d == e
    decreases |d|
  {
    var s, t := a + "r" + d, b + "r" + e;
    assert s[|s| - 1] == if d == "" then 'r' else d[|d| - 1];
    assert t[|t| - 1] == if e == "" then 'r' else e[|e| - 1];
    assert (d != "" ==> d[|d| - 1] in d) && (e != "" ==> e[|e| - 1] in e);
    if d == "" || e == "" {
      assert a == s[..|s| - 1] && b == t[..|t| - 1];
    } else {
      assert s[..|s| - 1] == a + "r" + d[..|d| - 1] && t[..|t| - 1] == b + "r" + e[..|e| - 1];
      SameTail(a, b, d[..|d| - 1], e[..|e| - 1]);
    }
  }

  /** The ETag determines the notebook and the revision, although ids may themselves contain "-r" and
      digits. */
  lemma EtagInjective(id: string, revision: nat, id': string, revision': nat)
    requires FormatEtag(id, revision) == FormatEtag(id', revision')
    ensures id == id' && revision == revision'
  {
    var e, e' := FormatEtag(id, revision), FormatEtag(id', revision');
    var a, a' := "\"" + id + "-", "\"" + id' + "-";
    var d, d' := Decimal(revision), Decimal(revision');
    assert e == a + "r" + d + "\"" && e' == a' + "r" + d' + "\"";
    assert e[..|e| - 1] == a + "r" + d && e'[..|e'| - 1] == a' + "r" + d';
    SameTail(a, a', d, d');
    assert id == a[1..|a| - 1] && id' == a'[1..|a'| - 1];
    ValueOfDecimal(revision);
    ValueOfDecimal(revision');
  }

  /** Python's whitespace: what `str.strip()` removes. */
  predicate IsSpace(c: char) {
    || c == ' ' || '\t' <= c <= '\r' || '\U{1C}' <= c <= '\U{1F}' || c == '\U{85}' || c == '\U{A0}'
    || c == '\U{1680}' || '\U{2000}' <= c <= '\U{200A}' || c == '\U{2028}' || c == '\U{2029}'
    || c == '\U{202F}' || c == '\U{205F}' || c == '\U{3000}'
  }

  function StripLeft(s: string): string {
    if s != "" && IsSpace(s[0]) then StripLeft(s[1..]) else s
  }

  function StripRight(s: string): string {
    if s != "" && IsSpace(s[|s| - 1]) then StripRight(s[..|s| - 1]) else s
  }

  function Strip(s: string): string {
    StripRight(StripLeft(s))
  }

  /** An ETag as it was sent survives the stripping of the request header. */
  lemma StripEtag(id: string, revision: nat)
    ensures Strip(FormatEtag(id, revision)) == FormatEtag(id, revision)
  {
    var e := FormatEtag(id, revision);
    assert e[0] == '"' && e[|e| - 1] == '"';
  }

  /** An ETag, written out. */
  lemma EtagSpelt(id: string)
    ensures FormatEtag(id, 7) == "\"" + id + "-r7\"" && FormatEtag(id, 10) == "\"" + id + "-r10\""
  {
    assert Decimal(10) == Decimal(1) + "0" == "10" && Decimal(7) == "7";
  }
}
