/** Identity issuance: a reviewed token names a service account, the account an identity, and the identity is
    the only name in the certificate. */
module Identity {
  import opened Strings

  /* ---------- DNS labels (section 2.1 of RFC 1123) ---------- */

  predicate Alphanumeric(c: char) {
    'a' <= c <= 'z' || '0' <= c <= '9'
  }

  predicate LabelShape(s: string) {
    && s != []
    && Alphanumeric(s[0]) && Alphanumeric(s[|s| - 1])
    && forall i :: 0 <= i < |s| ==> Alphanumeric(s[i]) || s[i] == '-'
  }

  predicate IsLabel(s: string) {
    LabelShape(s) && |s| <= 63
  }

  predicate IsSubdomain(s: string) {
    |s| <= 253 && forall i :: 0 <= i < |Split(s, '.')| ==> LabelShape(Split(s, '.')[i])
  }

  lemma LabelHasNoSeparator(s: string)
    requires IsLabel(s)
    ensures '.' !in s && ':' !in s
  {
  }

  const LETTERS := "abcdefghijklmnopqrstuvwxyz"

  const ALPHANUMERICS := LETTERS + DIGITS

  /** The pattern [-a-z0-9]*[a-z0-9]. */
  predicate MatchesTail(s: string) {
    s != [] && if |s| == 1 then s[0] in ALPHANUMERICS else (s[0] in ALPHANUMERICS || s[0] == '-') && MatchesTail(s[1..])
  }

  /** The pattern [a-z0-9]([-a-z0-9]*[a-z0-9])?. */
  predicate MatchesLabel(s: string) {
    s != [] && s[0] in ALPHANUMERICS && (|s| == 1 || MatchesTail(s[1..]))
  }

  lemma {:induction false} TailMatches(s: string)
    ensures MatchesTail(s) <==>
              && s != [] && Alphanumeric(s[|s| - 1])
              && forall i :: 0 <= i < |s| ==> Alphanumeric(s[i]) || s[i] == '-'
  {
    if s != [] {
      AlphanumericListed(s[0]);
      if |s| > 1 {
        TailMatches(s[1..]);
        assert s[1..][|s| - 2] == s[|s| - 1];
        assert forall i :: 1 <= i < |s| ==> s[i] == s[1..][i - 1];
      }
    }
  }

  lemma LetterIsListed(c: char)
    ensures 'a' <= c <= 'z' <==> c in LETTERS
  {
    if 'a' <= c <= 'z' {
      assert LETTERS[c as int - 'a' as int] == c;
    }
  }

  lemma AlphanumericListed(c: char)
    ensures Alphanumeric(c) <==> c in ALPHANUMERICS
  {
    hide LETTERS, DIGITS;
    LetterIsListed(c);
    DigitIsListed(c);
  }

  /** Labels and subdomains are what the patterns of RFC 1123 match, of at most 63 and 253 characters. */
  lemma NamesMatchPatterns(s: string)
    ensures LabelShape(s) <==> MatchesLabel(s)
    ensures IsLabel(s) <==> MatchesLabel(s) && |s| < 64
    ensures IsSubdomain(s) <==> |s| < 254 && forall part :: part in Split(s, '.') ==> MatchesLabel(part)
  {
    hide Split, LabelShape, MatchesLabel;
    forall part ensures LabelShape(part) <==> MatchesLabel(part) {
      LabelMatches(part);
    }
  }

  lemma LabelMatches(s: string)
    ensures LabelShape(s) <==> MatchesLabel(s)
  {
    hide MatchesTail;
    if s != [] {
      AlphanumericListed(s[0]);
      if |s| > 1 {
        TailMatches(s[1..]);
        assert s[1..][|s| - 2] == s[|s| - 1];
        assert forall i :: 1 <= i < |s| ==> s[i] == s[1..][i - 1];
        assert forall i :: 0 <= i < |s| - 1 ==> s[1..][i] == s[i + 1];
      }
    }
  }

  /* ---------- the trust domain ---------- */

  datatype TrustDomain = TrustDomain(controlNS: string, domain: string)

  function NewTrustDomain(controlNS: string, domain: string): (d: Option<TrustDomain>)
    ensures d.Some? <==> IsLabel(controlNS) && IsSubdomain(domain)
    ensures d.Some? ==> d.value.controlNS == controlNS && d.value.domain == domain
  {
    if !IsLabel(controlNS) then None
    else if !IsSubdomain(domain) then None
    else Some(TrustDomain(controlNS, domain))
  }

  function Suffix(d: TrustDomain): string {
    "identity" + "." + (d.controlNS + "." + d.domain)
  }

  function IdentityOf(d: TrustDomain, typ: string, nm: string, ns: string): Option<string> {
    if !IsLabel(typ) || !IsLabel(nm) || !IsLabel(ns) then None
    else Some(nm + "." + (ns + "." + (typ + "." + Suffix(d))))
  }

  /** Splitting an identity on dots gives back the account, its namespace and its type. */
  lemma IdentitySegments(d: TrustDomain, typ: string, nm: string, ns: string)
    requires IdentityOf(d, typ, nm, ns).Some?
    ensures Split(IdentityOf(d, typ, nm, ns).value, '.') == [nm, ns, typ] + Split(Suffix(d), '.')
  {
    LabelHasNoSeparator(nm);
    LabelHasNoSeparator(ns);
    LabelHasNoSeparator(typ);
    SplitAtSeparator(nm, ns + "." + (typ + "." + Suffix(d)), '.');
    SplitAtSeparator(ns, typ + "." + Suffix(d), '.');
    SplitAtSeparator(typ, Suffix(d), '.');
  }

  /** Under an accepted trust domain an identity is a chain of DNS labels: the account, its namespace, its type,
      the control plane's namespace and the domain, each to be read back. */
  lemma TrustDomainMakesNames(controlNS: string, domain: string, typ: string, nm: string, ns: string)
    requires NewTrustDomain(controlNS, domain).Some?
    requires IdentityOf(NewTrustDomain(controlNS, domain).value, typ, nm, ns).Some?
    ensures var segments := Split(IdentityOf(NewTrustDomain(controlNS, domain).value, typ, nm, ns).value, '.');
            && segments == [nm, ns, typ, "identity", controlNS] + Split(domain, '.')
            && Join(segments[5..], '.') == domain
            && forall i :: 0 <= i < |segments| ==> LabelShape(segments[i])
  {
    hide LabelShape, Split, Join;
    var d := NewTrustDomain(controlNS, domain).value;
    IdentitySegments(d, typ, nm, ns);
    SuffixSegments(d);
    JoinOfSplit(domain, '.');
    IdentityIsLabel();
    var segments := Split(IdentityOf(d, typ, nm, ns).value, '.');
    assert segments == [nm, ns, typ, "identity", controlNS] + Split(domain, '.');
    assert segments[5..] == Split(domain, '.');
    forall i | 0 <= i < |segments| ensures LabelShape(segments[i]) {
      assert i >= 5 ==> segments[i] == Split(domain, '.')[i - 5];
    }
  }

  lemma SuffixSegments(d: TrustDomain)
    requires IsLabel(d.controlNS)
    ensures Split(Suffix(d), '.') == ["identity", d.controlNS] + Split(d.domain, '.')
  {
    LabelHasNoSeparator(d.controlNS);
    SplitAtSeparator("identity", d.controlNS + "." + d.domain, '.');
    SplitAtSeparator(d.controlNS, d.domain, '.');
  }

  lemma IdentityIsLabel()
    ensures LabelShape("identity")
  {
  }

  /** One name never stands for two accounts, even across trust domains. */
  lemma NamesDetermineDomains(a: TrustDomain, b: TrustDomain, first: seq<string>, second: seq<string>)
    requires NewTrustDomain(a.controlNS, a.domain) == Some(a) && NewTrustDomain(b.controlNS, b.domain) == Some(b)
    requires |first| == |second| == 3 && IdentityOf(a, first[0], first[1], first[2]).Some?
    requires IdentityOf(a, first[0], first[1], first[2]) == IdentityOf(b, second[0], second[1], second[2])
    ensures a == b && first == second
  {
    hide IdentityOf, NewTrustDomain;
    TrustDomainMakesNames(a.controlNS, a.domain, first[0], first[1], first[2]);
    TrustDomainMakesNames(b.controlNS, b.domain, second[0], second[1], second[2]);
    var segments := Split(IdentityOf(a, first[0], first[1], first[2]).value, '.');
    assert segments[0] == first[1] == second[1] && segments[1] == first[2] == second[2]
           && segments[2] == first[0] == second[0];
    assert segments[4] == a.controlNS == b.controlNS;
  }

  /* ---------- token review ---------- */

  datatype Review = Review(error: string, authenticated: bool, username: string)

  datatype Validation = Identified(id: string) | InvalidToken | NotAuthenticated | ReviewFailed

  predicate Contains(s: string, part: string) {
    exists i :: 0 <= i <= |s| && HasPrefix(s[i..], part)
  }

  /** A username of the form system:TYPE:NS:SA. */
  function OfUsername(d: TrustDomain, username: string): Validation {
    var uns := Split(username, ':');
    if |uns| != 4 || uns[0] != "system" then InvalidToken
    else if !(IsLabel(uns[1]) && IsLabel(uns[2]) && IsLabel(uns[3])) then InvalidToken
    else
      match IdentityOf(d, uns[1], uns[3], uns[2])
      case Some(id) => Identified(id)
      case None => ReviewFailed
  }

  /** `second` is the answer of the review without audiences, asked for only when the first complains
      about them; an API error is None. */
  function Validate(d: TrustDomain, first: Option<Review>, second: Option<Review>): Validation {
    if first.None? then ReviewFailed
    else
      var retried := first.value.error != "" && Contains(first.value.error, "token audiences");
      var answer := if retried then second else first;
      if answer.None? then ReviewFailed
      else if first.value.error != "" && answer.value.error != "" then InvalidToken
      else if !answer.value.authenticated then NotAuthenticated
      else OfUsername(d, answer.value.username)
  }

  function Username(typ: string, ns: string, sa: string): string {
    "system" + ":" + (typ + ":" + (ns + ":" + sa))
  }

  lemma UsernameSegments(typ: string, ns: string, sa: string)
    requires IsLabel(typ) && IsLabel(ns) && IsLabel(sa)
    ensures Split(Username(typ, ns, sa), ':') == ["system", typ, ns, sa]
  {
    LabelHasNoSeparator(typ);
    LabelHasNoSeparator(ns);
    LabelHasNoSeparator(sa);
    SplitAtSeparator("system", typ + ":" + (ns + ":" + sa), ':');
    SplitAtSeparator(typ, ns + ":" + sa, ':');
    SplitAtSeparator(ns, sa, ':');
    SplitWithoutSeparator(sa, ':');
  }

  /** A username is accepted exactly when it is system:TYPE:NS:SA for three DNS labels, and its identity
      splits on dots back into that account and namespace. */
  lemma UsernameRoundTrip(d: TrustDomain, username: string)
    ensures OfUsername(d, username).Identified? <==>
              exists typ, ns, sa :: IsLabel(typ) && IsLabel(ns) && IsLabel(sa) && username == Username(typ, ns, sa)
    ensures OfUsername(d, username).Identified? ==>
              var uns := Split(username, ':'); var segments := Split(OfUsername(d, username).id, '.');
              && |uns| == 4 && |segments| > 3 && segments[0] == uns[3] && segments[1] == uns[2] && segments[2] == uns[1]
              && username == Username(uns[1], uns[2], uns[3])
  {
    if OfUsername(d, username).Identified? {
      var uns := Split(username, ':');
      IdentitySegments(d, uns[1], uns[3], uns[2]);
      UsernameOfSegments(username);
    }
    forall typ, ns, sa | IsLabel(typ) && IsLabel(ns) && IsLabel(sa) && username == Username(typ, ns, sa)
      ensures OfUsername(d, username).Identified?
    {
      UsernameSegments(typ, ns, sa);
    }
  }

  lemma UsernameOfSegments(username: string)
    requires |Split(username, ':')| == 4 && Split(username, ':')[0] == "system"
    ensures var uns := Split(username, ':'); username == Username(uns[1], uns[2], uns[3])
  {
    var uns := Split(username, ':');
    JoinOfSplit(username, ':');
    assert uns[1..][1..][1..] == [uns[3]];
    assert uns[1..][1..] == [uns[2], uns[3]];
    assert uns[1..] == [uns[1], uns[2], uns[3]];
    calc {
      username;
      Join(uns, ':');
      uns[0] + ":" + Join(uns[1..], ':');
      uns[0] + ":" + (uns[1] + ":" + Join(uns[1..][1..], ':'));
      uns[0] + ":" + (uns[1] + ":" + (uns[2] + ":" + uns[3]));
    }
  }

  /** Distinct accepted usernames have distinct identities. */
  lemma IdentitiesAreDistinct(d: TrustDomain, first: string, second: string)
    requires OfUsername(d, first).Identified? && OfUsername(d, second).Identified?
    requires OfUsername(d, first) == OfUsername(d, second)
    ensures first == second
  {
    UsernameRoundTrip(d, first);
    UsernameRoundTrip(d, second);
  }

  /* ---------- what a review must say ---------- */

  /** The part stands somewhere in the text. */
  lemma ContainsMeans(s: string, part: string)
    ensures Contains(s, part) <==> exists before, after :: s == before + part + after
  {
    if Contains(s, part) {
      var i :| 0 <= i <= |s| && HasPrefix(s[i..], part);
      assert s == s[..i] + part + s[i + |part|..];
    }
    forall before, after | s == before + part + after ensures Contains(s, part) {
      assert s[|before|..] == part + after;
      assert HasPrefix(s[|before|..], part);
    }
  }

  /** The review that counts: the first, or the one without audiences if the first complains about those. */
  ghost predicate Counts(first: Option<Review>, second: Option<Review>, r: Review) {
    first.Some? &&
    if exists before, after :: first.value.error == before + "token audiences" + after then second == Some(r)
    else first == Some(r)
  }

  /** A username of a service account. */
  ghost predicate NamesAccount(username: string) {
    exists typ, ns, sa :: IsLabel(typ) && IsLabel(ns) && IsLabel(sa) && username == Username(typ, ns, sa)
  }

  /** What the validator makes of the reviews: an identity exactly if the review that counts was answered, carries no
      error, is authenticated and names a service account, and otherwise exactly which error. */
  lemma ValidateIsExact(d: TrustDomain, first: Option<Review>, second: Option<Review>)
    ensures Validate(d, first, second).Identified? <==>
              exists r :: Counts(first, second, r) && r.error == "" && r.authenticated && NamesAccount(r.username)
    ensures Validate(d, first, second) == NotAuthenticated <==>
              exists r :: Counts(first, second, r) && r.error == "" && !r.authenticated
    ensures Validate(d, first, second) == InvalidToken <==>
              exists r :: Counts(first, second, r) && (r.error != "" || (r.authenticated && !NamesAccount(r.username)))
    ensures Validate(d, first, second) == ReviewFailed <==> !exists r :: Counts(first, second, r)
    ensures forall r, typ, ns, sa ::
              Counts(first, second, r) && r.error == "" && r.authenticated && r.username == Username(typ, ns, sa)
              && IsLabel(typ) && IsLabel(ns) && IsLabel(sa) ==>
                Some(Validate(d, first, second)) == IdentifiedAs(IdentityOf(d, typ, sa, ns))
  {
    hide IsLabel, IdentityOf, Username;
    if first.Some? {
      ContainsMeans(first.value.error, "token audiences");
      assert Contains("", "token audiences") ==> false by { ContainsMeans("", "token audiences"); }
      forall r | Counts(first, second, r)
        ensures Validate(d, first, second) == Judged(d, r)
      {
      }
      if second.Some? { JudgedIsExact(d, second.value); }
      JudgedIsExact(d, first.value);
    }
  }

  function IdentifiedAs(id: Option<string>): Option<Validation> {
    match id
    case None => None
    case Some(i) => Some(Identified(i))
  }

  function Judged(d: TrustDomain, r: Review): Validation {
    if r.error != "" then InvalidToken
    else if !r.authenticated then NotAuthenticated
    else OfUsername(d, r.username)
  }

  lemma JudgedIsExact(d: TrustDomain, r: Review)
    ensures Judged(d, r).Identified? <==> r.error == "" && r.authenticated && NamesAccount(r.username)
    ensures Judged(d, r) == NotAuthenticated <==> r.error == "" && !r.authenticated
    ensures Judged(d, r) == InvalidToken <==> r.error != "" || (r.authenticated && !NamesAccount(r.username))
    ensures Judged(d, r) != ReviewFailed
    ensures forall typ, ns, sa ::
              r.error == "" && r.authenticated && r.username == Username(typ, ns, sa)
              && IsLabel(typ) && IsLabel(ns) && IsLabel(sa) ==>
                Some(Judged(d, r)) == IdentifiedAs(IdentityOf(d, typ, sa, ns))
  {
    hide IsLabel;
    UsernameRoundTrip(d, r.username);
    forall typ, ns, sa | r.username == Username(typ, ns, sa) && IsLabel(typ) && IsLabel(ns) && IsLabel(sa)
      ensures Split(r.username, ':') == ["system", typ, ns, sa]
    {
      UsernameSegments(typ, ns, sa);
    }
  }

  /* ---------- certificate requests ---------- */

  datatype Csr = Csr(dnsNames: seq<string>, commonName: string, emails: seq<string>, ips: seq<string>,
                     uris: seq<string>)

  /** `der` is whether a request was attached at all, `csr` what it parses to. */
  datatype Request = Request(identity: string, token: seq<int>, der: bool, csr: Option<Csr>)

  predicate Complete(req: Request) {
    req.identity != "" && req.token != [] && req.der && req.csr.Some?
  }

  predicate Names(csr: Csr, identity: string) {
    && csr.dnsNames == [identity]
    && (csr.commonName == "" || csr.commonName == identity)
    && csr.emails == [] && csr.ips == [] && csr.uris == []
  }

  /** A DNS name, and nothing but the identity itself as the common name. */
  method CheckCSR(csr: Csr, identity: string) returns (ok: bool)
    ensures ok <==> Names(csr, identity)
    ensures ok <==>
              && |csr.dnsNames| == 1 && identity in csr.dnsNames && csr.commonName in {"", identity}
              && csr.emails + csr.ips + csr.uris == []
  {
    if |csr.dnsNames| != 1 {
      return false;
    }
    if csr.dnsNames[0] != identity {
      return false;
    }
    if csr.commonName != "" && csr.commonName != identity {
      return false;
    }
    if |csr.emails| > 0 {
      return false;
    }
    if |csr.ips| > 0 {
      return false;
    }
    if |csr.uris| > 0 {
      return false;
    }
    return true;
  }

  /* ---------- the service ---------- */

  /** Issuer credentials as read from disk. */
  datatype Creds = Creds(certificate: string, isCA: bool)

  /** Verification against the trust anchors at a given time, and signing, are taken as given. */
  datatype Crypto = Crypto(verify: (Creds, int) -> bool, sign: (Creds, Csr) -> Option<string>)

  datatype Code = Unavailable | InvalidArgument | FailedPrecondition | Internal | IssuerRejected

  datatype Response = Issued(certificate: string, account: string, namespace: string) | Refused(code: Code)

  predicate Loadable(crypto: Crypto, creds: Option<Creds>, now: int) {
    creds.Some? && crypto.verify(creds.value, now) && creds.value.isCA
  }

  function AfterReload(crypto: Crypto, issuer: Option<Creds>, creds: Option<Creds>, now: int): Option<Creds> {
    if Loadable(crypto, creds, now) then creds else issuer
  }

  /** When a request is answered with a certificate. */
  predicate Issues(crypto: Crypto, issuer: Option<Creds>, req: Request, v: Validation, now: int) {
    && issuer.Some? && Complete(req) && crypto.verify(issuer.value, now)
    && Names(req.csr.value, req.identity)
    && v == Identified(req.identity)
    && crypto.sign(issuer.value, req.csr.value).Some?
  }

  /** What the service answers, in the order of its checks. A validated identity always has two segments. */
  function Respond(crypto: Crypto, issuer: Option<Creds>, req: Request, v: Validation, now: int): Response {
    if issuer.None? then Refused(Unavailable)
    else if !Complete(req) then Refused(InvalidArgument)
    else if !crypto.verify(issuer.value, now) then Refused(IssuerRejected)
    else if !Names(req.csr.value, req.identity) then Refused(FailedPrecondition)
    else
      match v
      case NotAuthenticated => Refused(FailedPrecondition)
      case InvalidToken => Refused(InvalidArgument)
      case ReviewFailed => Refused(Internal)
      case Identified(id) =>
        if req.identity != id then Refused(FailedPrecondition)
        else
          var crt := crypto.sign(issuer.value, req.csr.value);
          var segments := Split(id, '.');
          if crt.None? || |segments| < 2 then Refused(Internal) else Issued(crt.value, segments[0], segments[1])
  }

  class Service {
    const crypto: Crypto
    const domain: TrustDomain
    var issuer: Option<Creds>

    constructor (crypto: Crypto, domain: TrustDomain)
      ensures this.crypto == crypto && this.domain == domain && issuer == None
    {
      this.crypto := crypto;
      this.domain := domain;
      issuer := None;
    }

    /** Reloading keeps the old issuer when the new one cannot be read, verified, or is no CA. */
    method Initialize(creds: Option<Creds>, now: int) returns (ok: bool)
      modifies `issuer
      ensures ok == Loadable(crypto, creds, now)
      ensures ok <==> exists c :: creds == Some(c) && crypto.verify(c, now) && c.isCA
      ensures issuer == AfterReload(crypto, old(issuer), creds, now)
      ensures issuer == if ok then creds else old(issuer)
    {
      if creds.None? {
        return false;
      }
      if !crypto.verify(creds.value, now) {
        return false;
      }
      if !creds.value.isCA {
        return false;
      }
      issuer := creds;
      return true;
    }

    method Certify(req: Request, first: Option<Review>, second: Option<Review>, now: int) returns (r: Response)
      ensures r == Respond(crypto, issuer, req, Validate(domain, first, second), now)
      ensures r.Issued? <==> Issues(crypto, issuer, req, Validate(domain, first, second), now)
      ensures r.Issued? ==>
                && crypto.sign(issuer.value, req.csr.value) == Some(r.certificate)
                && (exists typ :: IdentityOf(domain, typ, r.account, r.namespace) == Some(req.identity))
      ensures r == Refused(Unavailable) <==> issuer.None?
      ensures r == Refused(IssuerRejected) <==> issuer.Some? && Complete(req) && !crypto.verify(issuer.value, now)
      ensures r == Refused(InvalidArgument) <==>
                issuer.Some? &&
                (|| req.identity == "" || |req.token| == 0 || !req.der || req.csr.None?
                 || (crypto.verify(issuer.value, now) && Names(req.csr.value, req.identity)
                     && Validate(domain, first, second) == InvalidToken))
      ensures r == Refused(FailedPrecondition) <==>
                && issuer.Some? && Complete(req) && crypto.verify(issuer.value, now)
                && (|| !Names(req.csr.value, req.identity)
                    || Validate(domain, first, second) == NotAuthenticated
                    || exists id :: Validate(domain, first, second) == Identified(id) && id != req.identity)
      ensures r == Refused(Internal) <==>
                && issuer.Some? && Complete(req) && crypto.verify(issuer.value, now)
                && Names(req.csr.value, req.identity)
                && (|| Validate(domain, first, second) == ReviewFailed
                    || (Validate(domain, first, second) == Identified(req.identity)
                        && crypto.sign(issuer.value, req.csr.value).None?))
    {
      hide Validate, Names, Split;
      if issuer.None? {
        return Refused(Unavailable);
      }
      if req.identity == "" || req.token == [] || !req.der || req.csr.None? {
        return Refused(InvalidArgument);
      }
      if !crypto.verify(issuer.value, now) {
        return Refused(IssuerRejected);
      }
      var csr := req.csr.value;
      var named := CheckCSR(csr, req.identity);
      if !named {
        return Refused(FailedPrecondition);
      }
      var tok := Validate(domain, first, second);
      match tok
      case NotAuthenticated => return Refused(FailedPrecondition);
      case InvalidToken => return Refused(InvalidArgument);
      case ReviewFailed => return Refused(Internal);
      case Identified(id) =>
        if req.identity != id {
          return Refused(FailedPrecondition);
        }
        var crt := crypto.sign(issuer.value, csr);
        if crt.None? {
          return Refused(Internal);
        }
        IdentifiedSegments(domain, first, second);
        var segments := Split(id, '.');
        return Issued(crt.value, segments[0], segments[1]);
    }
  }

  /** The username behind a validated token. */
  function ReviewedName(first: Option<Review>, second: Option<Review>): string {
    if first.None? then ""
    else
      var answer := if first.value.error != "" && Contains(first.value.error, "token audiences") then second else first;
      if answer.None? then "" else answer.value.username
  }

  lemma IdentifiedSegments(d: TrustDomain, first: Option<Review>, second: Option<Review>)
    requires Validate(d, first, second).Identified?
    ensures var id := Validate(d, first, second).id; var segments := Split(id, '.');
            && OfUsername(d, ReviewedName(first, second)) == Identified(id)
            && |segments| > 3 && IdentityOf(d, segments[2], segments[0], segments[1]) == Some(id)
  {
    hide Contains, IsLabel;
    var username := ReviewedName(first, second);
    UsernameRoundTrip(d, username);
  }

  /* ---------- runs of reloads and requests ---------- */

  datatype Step =
    | Reload(creds: Option<Creds>, now: int)
    | Ask(req: Request, first: Option<Review>, second: Option<Review>, now: int)

  function IssuerAfter(crypto: Crypto, steps: seq<Step>): Option<Creds> {
    if steps == [] then None
    else
      var n := |steps| - 1;
      var before := IssuerAfter(crypto, steps[..n]);
      match steps[n]
      case Reload(creds, now) => AfterReload(crypto, before, creds, now)
      case Ask(_, _, _, _) => before
  }

  /** The issuer was read by some reload that verified it as a CA, and no later reload replaced it. */
  ghost predicate LoadedAt(crypto: Crypto, steps: seq<Step>, creds: Creds, j: nat) {
    && j < |steps| && steps[j].Reload? && steps[j].creds == Some(creds)
    && crypto.verify(creds, steps[j].now) && creds.isCA
    && forall l, c :: j < l < |steps| && steps[l].Reload? && steps[l].creds == Some(c) ==>
         !crypto.verify(c, steps[l].now) || !c.isCA
  }

  lemma {:induction false} IssuerWasLoaded(crypto: Crypto, steps: seq<Step>) returns (j: nat)
    requires IssuerAfter(crypto, steps).Some?
    ensures LoadedAt(crypto, steps, IssuerAfter(crypto, steps).value, j)
  {
    var n := |steps| - 1;
    if steps[n].Reload? && Loadable(crypto, steps[n].creds, steps[n].now) {
      j := n;
    } else {
      j := IssuerWasLoaded(crypto, steps[..n]);
      assert forall l :: 0 <= l < n ==> steps[..n][l] == steps[l];
    }
  }

  /** There is an issuer as soon as one could be loaded. */
  lemma {:induction false} IssuerIsThere(crypto: Crypto, steps: seq<Step>, j: nat, creds: Creds)
    requires j < |steps| && steps[j].Reload? && steps[j].creds == Some(creds)
    requires crypto.verify(creds, steps[j].now) && creds.isCA
    ensures IssuerAfter(crypto, steps).Some?
  {
    var n := |steps| - 1;
    if j < n {
      assert steps[..n][j] == steps[j];
      IssuerIsThere(crypto, steps[..n], j, creds);
    }
  }

  /** The answer to the i-th step of a run. */
  function Answer(crypto: Crypto, d: TrustDomain, steps: seq<Step>, i: nat): Response
    requires i < |steps| && steps[i].Ask?
  {
    var step := steps[i];
    Respond(crypto, IssuerAfter(crypto, steps[..i]), step.req, Validate(d, step.first, step.second), step.now)
  }

  /** In every run of reloads and requests: an answer with a certificate was given to a CSR whose one DNS name
      is the identity of the reviewed token, by an issuer that was verified when it was loaded and again when it
      signed; and the account and namespace it names are those of the token's username. */
  lemma IssuanceIsSound(crypto: Crypto, d: TrustDomain, steps: seq<Step>, i: nat)
    requires i < |steps| && steps[i].Ask? && Answer(crypto, d, steps, i).Issued?
    ensures var step := steps[i]; var issuer := IssuerAfter(crypto, steps[..i]); var r := Answer(crypto, d, steps, i);
            var username := ReviewedName(step.first, step.second);
            && issuer.Some? && crypto.verify(issuer.value, step.now)
            && (exists j: nat :: LoadedAt(crypto, steps[..i], issuer.value, j))
            && step.req.csr.Some? && step.req.csr.value.dnsNames == [step.req.identity]
            && crypto.sign(issuer.value, step.req.csr.value) == Some(r.certificate)
            && OfUsername(d, username) == Identified(step.req.identity)
            && (exists typ :: username == Username(typ, r.namespace, r.account))
            && (exists review :: Counts(step.first, step.second, review)
                                 && review.error == "" && review.authenticated && review.username == username)
            && step.req.token != [] && step.req.csr.value.commonName in {"", step.req.identity}
            && step.req.csr.value.emails == [] && step.req.csr.value.ips == [] && step.req.csr.value.uris == []
  {
    hide Contains, IsLabel, IdentityOf, LoadedAt;
    var step := steps[i];
    var j := IssuerWasLoaded(crypto, steps[..i]);
    IdentifiedSegments(d, step.first, step.second);
    UsernameRoundTrip(d, ReviewedName(step.first, step.second));
    var segments := Split(step.req.identity, '.');
    assert ReviewedName(step.first, step.second) == Username(segments[2], segments[1], segments[0]);
    ValidateIsExact(d, step.first, step.second);
    var review :| Counts(step.first, step.second, review) && review.error == "" && review.authenticated;
    ContainsMeans(step.first.value.error, "token audiences");
    ContainsMeans("", "token audiences");
    assert review.username == ReviewedName(step.first, step.second);
  }
}
