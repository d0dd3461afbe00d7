/** The add-site endpoint: the domain check, the id, the defaults of the new
    site's flags and the reply. The database insert is a parameter. */
module AddSiteApi {
  import opened Util

  // ---------------------------------------------------------------------------
  // The domain pattern

  predicate Letter(c: char) { 'a' <= c <= 'z' || 'A' <= c <= 'Z' }

  predicate Alnum(c: char) { Letter(c) || '0' <= c <= '9' }

  predicate LabelChar(c: char) { Alnum(c) || c == '-' }

  /** `[a-zA-Z0-9](?:[a-zA-Z0-9-]{0,61}[a-zA-Z0-9])?`: 1 to 63 letters,
      digits or hyphens, neither first nor last a hyphen. */
  predicate ValidLabel(l: string)
  {
    && 1 <= |l| <= 63
    && Alnum(l[0]) && Alnum(l[|l| - 1])
    && forall i :: 0 <= i < |l| ==> LabelChar(l[i])
  }

  /** `[a-zA-Z]{2,}` */
  predicate IsTld(t: string)
  {
    |t| >= 2 && forall i :: 0 <= i < |t| ==> Letter(t[i])
  }

  /** Each label followed by a dot. */
  function Dotted(labels: seq<string>): string
    decreases |labels|
  {
    if |labels| == 0 then "" else labels[0] + "." + Dotted(labels[1..])
  }

  /** d is one or more valid labels, each followed by a dot, then a TLD. */
  predicate IsDecomposition(d: string, labels: seq<string>, tld: string)
  {
    && |labels| >= 1
    && (forall i :: 0 <= i < |labels| ==> ValidLabel(labels[i]))
    && IsTld(tld)
    && d == Dotted(labels) + tld
  }

  /** What the pattern `^(?:label\.)+[a-zA-Z]{2,}$` describes. */
  ghost predicate DomainShape(d: string)
  {
    exists labels: seq<string>, tld: string :: IsDecomposition(d, labels, tld)
  }

  /** The index of the first dot, if any. */
  function FirstDot(s: string): (r: Option<nat>)
    ensures r.None? <==> forall i :: 0 <= i < |s| ==> s[i] != '.'
    ensures r.Some? ==> r.value < |s| && s[r.value] == '.' && forall i :: 0 <= i < r.value ==> s[i] != '.'
    decreases |s|
  {
    if |s| == 0 then None
    else if s[0] == '.' then Some(0)
    else match FirstDot(s[1..])
      case None => None
      case Some(i) => Some(i + 1)
  }

  /** The domain check as a left-to-right match: a label up to the first
      dot, then either the TLD or another label. */
  function DomainMatches(d: string): bool
    decreases |d|
  {
    match FirstDot(d)
    case None => false
    case Some(i) => ValidLabel(d[..i]) && (IsTld(d[i + 1..]) || DomainMatches(d[i + 1..]))
  }

  /** Every domain the check accepts has the shape of the pattern. */
  lemma {:induction false} DomainMatchesSound(d: string)
    requires DomainMatches(d)
    ensures DomainShape(d)
    decreases |d|
  {
    var i := FirstDot(d).value;
    var rest := d[i + 1..];
    assert d == d[..i] + "." + rest;
    if IsTld(rest) {
      assert Dotted([d[..i]]) == d[..i] + "." + Dotted([]);
      assert IsDecomposition(d, [d[..i]], rest);
    } else {
      DomainMatchesSound(rest);
      var labels, tld :| IsDecomposition(rest, labels, tld);
      assert ([d[..i]] + labels)[1..] == labels;
      assert IsDecomposition(d, [d[..i]] + labels, tld);
    }
  }

  /** Every domain of the pattern's shape passes the check. */
  lemma {:induction false} DomainMatchesComplete(d: string, labels: seq<string>, tld: string)
    requires IsDecomposition(d, labels, tld)
    ensures DomainMatches(d)
    decreases |labels|
  {
    var l := labels[0];
    var rest := Dotted(labels[1..]) + tld;
    assert d == l + "." + rest;
    assert d[|l|] == '.';
    assert forall k :: 0 <= k < |l| ==> d[k] == l[k] && LabelChar(l[k]);
    var i := FirstDot(d).value;
    assert i == |l|;
    assert d[..i] == l && d[i + 1..] == rest;
    if |labels| > 1 {
      DomainMatchesComplete(rest, labels[1..], tld);
    } else {
      assert labels[1..] == [];
      assert rest == tld;
    }
  }

  /** The check accepts exactly the domains of the pattern's shape. */
  lemma DomainCheckIsPattern(d: string)
    ensures DomainMatches(d) <==> DomainShape(d)
  {
    if DomainMatches(d) {
      DomainMatchesSound(d);
    }
    if DomainShape(d) {
      var labels, tld :| IsDecomposition(d, labels, tld);
      DomainMatchesComplete(d, labels, tld);
    }
  }

  // ---------------------------------------------------------------------------
  // The id

  type Byte = x: nat | x < 256

  predicate IsHexDigit(c: char) { '0' <= c <= '9' || 'a' <= c <= 'f' }

  /** The lower-case hex digit of a value below 16. */
  function HexDigit(k: nat): (c: char)
    requires k < 16
    ensures IsHexDigit(c)
  {
    if k < 10 then ('0' as int + k) as char else ('a' as int + k - 10) as char
  }

  /** `randomBytes(6).toString("hex")`: two lower-case hex digits per byte. */
  function HexId(bytes: seq<Byte>): (id: string)
    ensures |id| == 2 * |bytes|
    ensures forall i :: 0 <= i < |id| ==> IsHexDigit(id[i])
  {
    if |bytes| == 0 then ""
    else [HexDigit(bytes[0] / 16), HexDigit(bytes[0] % 16)] + HexId(bytes[1..])
  }

  function HexValue(c: char): nat
  {
    if '0' <= c <= '9' then (c - '0') as nat
    else if 'a' <= c <= 'f' then (c - 'a') as nat + 10
    else 0
  }

  /** Reads the id back into bytes. */
  function FromHex(id: string): seq<Byte>
    requires |id| % 2 == 0
    decreases |id|
  {
    if |id| == 0 then []
    else
      var v := HexValue(id[0]) * 16 + HexValue(id[1]);
      [if v < 256 then v else 0] + FromHex(id[2..])
  }

  lemma HexDigitValue(k: nat)
    requires k < 16
    ensures HexValue(HexDigit(k)) == k
  {
  }

  /** The two digits of a byte read back to the byte. */
  lemma ByteDigits(b: Byte)
    ensures HexValue(HexDigit(b / 16)) * 16 + HexValue(HexDigit(b % 16)) == b
  {
    HexDigitValue(b / 16);
    HexDigitValue(b % 16);
    assert b / 16 * 16 + b % 16 == b;
  }

  /** The id is 12 hex digits and encodes the 6 random bytes without loss. */
  lemma {:induction false} HexIdRoundTrip(bytes: seq<Byte>)
    ensures FromHex(HexId(bytes)) == bytes
    decreases |bytes|
  {
    if |bytes| > 0 {
      var rest := HexId(bytes[1..]);
      var d := [HexDigit(bytes[0] / 16), HexDigit(bytes[0] % 16)];
      var id := d + rest;
      assert HexId(bytes) == id;
      assert id[0] == d[0] && id[1] == d[1] && id[2..] == rest;
      ByteDigits(bytes[0]);
      HexIdRoundTrip(bytes[1..]);
    }
  }

  // ---------------------------------------------------------------------------
  // The endpoint

  /** The request body; an absent flag is None. */
  datatype AddSiteBody = AddSiteBody(
    domain: string,
    name: string,
    isPublic: Option<bool>,
    saltUserIds: Option<bool>,
    blockBots: Option<bool>)

  datatype Site = Site(
    id: string,
    domain: string,
    name: string,
    createdBy: Option<string>,
    organizationId: string,
    isPublic: bool,
    saltUserIds: bool,
    blockBots: bool)

  datatype ReplyBody = SiteBody(site: Site) | ErrorBody(error: string)

  datatype Reply = Reply(status: int, body: ReplyBody)

  const InvalidDomain := "Invalid domain format. Must be a valid domain like example.com or sub.example.com"
  const InternalError := "Internal server error"

  /** `x || false` */
  function OrFalse(b: Option<bool>): bool
  {
    b.Some? && b.value
  }

  /** `x === undefined ? true : x` */
  function DefaultTrue(b: Option<bool>): bool
  {
    if b.None? then true else b.value
  }

  /** The row to insert. */
  function NewSite(organizationId: string, userId: Option<string>, body: AddSiteBody, bytes: seq<Byte>): Site
  {
    Site(HexId(bytes), body.domain, body.name, userId, organizationId,
         OrFalse(body.isPublic), OrFalse(body.saltUserIds), DefaultTrue(body.blockBots))
  }

  /** `addSite`; `insert` is the database insert returning the stored row or
      failing, `bytes` the six random bytes. */
  function AddSite(organizationId: string, userId: Option<string>, body: AddSiteBody, bytes: seq<Byte>,
                   insert: Site -> Result<Site, string>): Reply
  {
    if !DomainMatches(body.domain) then Reply(400, ErrorBody(InvalidDomain))
    else
      match insert(NewSite(organizationId, userId, body, bytes))
      case Ok(row) => Reply(201, SiteBody(row))
      case Err(_) => Reply(500, ErrorBody(InternalError))
  }

  /** A domain outside the pattern is refused with 400 before anything is
      inserted: the reply does not depend on the database. */
  lemma InvalidDomainRejected(organizationId: string, userId: Option<string>, body: AddSiteBody, bytes: seq<Byte>,
                              insert: Site -> Result<Site, string>, insert2: Site -> Result<Site, string>)
    requires !DomainShape(body.domain)
    ensures AddSite(organizationId, userId, body, bytes, insert) == Reply(400, ErrorBody(InvalidDomain))
    ensures AddSite(organizationId, userId, body, bytes, insert) == AddSite(organizationId, userId, body, bytes, insert2)
  {
    DomainCheckIsPattern(body.domain);
  }

  /** A valid domain is inserted once with a 12-digit hex id, public and
      user-id salting off unless set to true, bot blocking on unless set;
      the reply is 201 with the stored row, or 500 when the insert fails. */
  lemma ValidDomainInserted(organizationId: string, userId: Option<string>, body: AddSiteBody, bytes: seq<Byte>,
                            insert: Site -> Result<Site, string>)
    requires DomainShape(body.domain)
    requires |bytes| == 6
    ensures var site := NewSite(organizationId, userId, body, bytes);
            && |site.id| == 12 && FromHex(site.id) == bytes
            && site.domain == body.domain && site.name == body.name
            && site.organizationId == organizationId && site.createdBy == userId
            && (site.isPublic <==> body.isPublic == Some(true))
            && (site.saltUserIds <==> body.saltUserIds == Some(true))
            && (!site.blockBots <==> body.blockBots == Some(false))
            && (insert(site).Ok? ==> AddSite(organizationId, userId, body, bytes, insert) == Reply(201, SiteBody(insert(site).value)))
            && (insert(site).Err? ==> AddSite(organizationId, userId, body, bytes, insert) == Reply(500, ErrorBody(InternalError)))
  {
    DomainCheckIsPattern(body.domain);
    HexIdRoundTrip(bytes);
  }
}
