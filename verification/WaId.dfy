/**
 * WhatsApp identities (OpenWA/src/engine/identity/wa-id.ts, wa-id.value.ts) and the resolver and folding of the
 * Baileys session store (OpenWA/src/engine/adapters/baileys-session-store.ts).
 */
module WaId {
  import opened Wrappers
  import opened Strings

  // ---- trim and toLowerCase ----

  predicate JsSpace(c: char) {
    || '\t' <= c <= '\r' || c == ' ' || c == '\U{a0}' || c == '\U{1680}' || '\U{2000}' <= c <= '\U{200a}'
    || c == '\U{2028}' || c == '\U{2029}' || c == '\U{202f}' || c == '\U{205f}' || c == '\U{3000}' || c == '\U{feff}'
  }

  function LowerChar(c: char): char {
    if 'A' <= c <= 'Z' then c - 'A' + 'a' else c
  }

  function Lower(s: string): (t: string)
    ensures |t| == |s| && forall i :: 0 <= i < |s| ==> t[i] == LowerChar(s[i])
  {
    if s == "" then "" else [LowerChar(s[0])] + Lower(s[1..])
  }

  predicate IsLower(s: string) {
    forall i :: 0 <= i < |s| ==> !('A' <= s[i] <= 'Z')
  }

  /** `s.split(c)[0]`. */
  function Before(s: string, c: char): (b: string)
    ensures b <= s && c !in b
    ensures c in s ==> |b| < |s| && s[|b|] == c
    ensures c !in s ==> b == s
  {
    match IndexOf(s, c)
    case None => s
    case Some(i) => s[..i]
  }

  /** `s.split(c)[1]`, when there is one. */
  function Between(s: string, c: char): Option<string> {
    match IndexOf(s, c)
    case None => None
    case Some(i) => Some(Before(s[i + 1..], c))
  }

  /** The two are indeed the first pieces of the split string. */
  lemma FirstPieces(s: string, c: char)
    ensures var pieces := SplitOn(s, c);
            pieces[0] == Before(s, c) && Between(s, c) == if |pieces| > 1 then Some(pieces[1]) else None
  {
    match IndexOf(s, c)
    case None => SplitWithout(s, c);
    case Some(i) =>
      assert s == s[..i] + [c] + s[i + 1..];
      SplitAt(s[..i], s[i + 1..], c);
      FirstPiece(s[i + 1..], c);
      assert SplitOn(s, c)[1] == SplitOn(s[i + 1..], c)[0];
  }

  lemma FirstPiece(s: string, c: char)
    ensures SplitOn(s, c)[0] == Before(s, c)
  {
    match IndexOf(s, c)
    case None => SplitWithout(s, c);
    case Some(i) =>
      assert s == s[..i] + [c] + s[i + 1..];
      SplitAt(s[..i], s[i + 1..], c);
  }

  /** userPart: domain and device suffix stripped. */
  function UserPart(jid: string): string {
    Before(Before(jid, '@'), ':')
  }

  // ---- parseWaId and toNeutralJid ----

  datatype Kind = User | Group | Lid | Status | Newsletter | Broadcast | Unknown

  datatype Parsed = Parsed(kind: Kind, userPart: string, device: Option<string>)

  function KindOf(domain: string): Kind {
    if domain == "c.us" || domain == "s.whatsapp.net" then User
    else if domain == "g.us" then Group
    else if domain == "lid" then Lid
    else if domain == "newsletter" then Newsletter
    else if domain == "broadcast" then Broadcast
    else Unknown
  }

  function Folded(jid: string): string {
    Lower(Trim(jid, JsSpace))
  }

  function Parse(jid: string): Parsed {
    ParseFolded(Folded(jid))
  }

  function ParseFolded(lower: string): Parsed {
    if lower == Id("status", "broadcast") then Parsed(Status, "status", None)
    else match LastIndexOf(lower, '@')
      case None => Parsed(Unknown, lower, None)
      case Some(at) =>
        Parsed(KindOf(lower[at + 1..]), Before(lower[..at], ':'), Between(lower[..at], ':'))
  }

  /** An id from its local part and its domain. */
  function Id(local: string, domain: string): string {
    local + "@" + domain
  }

  type Resolver = string -> Option<string>

  predicate Truthy(s: Option<string>) {
    s.Some? && s.value != ""
  }

  function ToNeutral(jid: string, resolve: Resolver): string {
    if jid == "" then jid
    else
      var p := Parse(jid);
      Reduce(jid, p, if p.kind == Lid then resolve(jid) else None)
  }

  /** The cases of toNeutralJid, `phone` being what a lid resolves to. */
  function Reduce(jid: string, p: Parsed, phone: Option<string>): string {
    match p.kind
    case User => Id(p.userPart, "c.us")
    case Group => Id(p.userPart, "g.us")
    case Lid => if Truthy(phone) then Id(phone.value, "c.us") else Id(p.userPart, "lid")
    case Status => Id("status", "broadcast")
    case Newsletter => Id(p.userPart, "newsletter")
    case Broadcast => Id(p.userPart, "broadcast")
    case Unknown => jid
  }

  // ---- The value object ----

  datatype Value = Value(kind: Kind, raw: string, phone: Option<string>, lid: Option<string>, groupId: Option<string>)

  /** WaId.fromEngineJid. */
  function FromEngineJid(jid: string, resolve: Resolver): Value {
    var p := Parse(jid);
    FromParsed(jid, p, if p.kind == Lid then resolve(jid) else None)
  }

  function FromParsed(jid: string, p: Parsed, phone: Option<string>): Value {
    match p.kind
    case User => Value(User, jid, Some(p.userPart), None, None)
    case Group => Value(Group, jid, None, None, Some(p.userPart))
    case Lid => Value(Lid, jid, phone, Some(p.userPart), None)
    case _ => Value(p.kind, jid, None, None, None)
  }

  function OrUndefined(s: Option<string>): string {
    if s.Some? then s.value else "undefined"
  }

  /** WaId.toNeutral. */
  function NeutralOf(v: Value): string {
    match v.kind
    case User => Id(OrUndefined(v.phone), "c.us")
    case Group => Id(OrUndefined(v.groupId), "g.us")
    case Lid => if Truthy(v.phone) then Id(v.phone.value, "c.us") else Id(OrUndefined(v.lid), "lid")
    case Status => Id("status", "broadcast")
    case Newsletter => Id(UserPart(v.raw), "newsletter")
    case Broadcast => Id(UserPart(v.raw), "broadcast")
    case Unknown => v.raw
  }

  // ---- The session store ----

  /** What resolvePhone reads: the session's lid map, the contacts' phone numbers and the shared cache. */
  datatype Session = Session(lidToPn: map<string, string>, contacts: map<string, Option<string>>,
                             cached: map<string, Option<string>>)

  function Get<T>(m: map<string, T>, k: string): Option<T> {
    if k in m then Some(m[k]) else None
  }

  function OrElse<T>(a: Option<T>, b: Option<T>): Option<T> {
    if a.Some? then a else b
  }

  function ResolvePhone(s: Session, id: string): Option<string> {
    ResolveParsed(s, id, Parse(id))
  }

  function ResolveParsed(s: Session, id: string, p: Parsed): Option<string> {
    if p.kind == User then Some(p.userPart)
    else if p.kind == Lid then
      var own := OwnPhone(s, id, p.userPart);
      if own.Some? then own else if p.userPart in s.cached then s.cached[p.userPart] else None
    else None
  }

  /** What the session's own maps say about a lid. */
  function OwnPhone(s: Session, id: string, user: string): Option<string> {
    var lidJid := Id(user, "lid");
    var pn := OrElse(Get(s.lidToPn, lidJid), Get(s.lidToPn, id));
    if Truthy(pn) then Some(UserPart(pn.value))
    else
      var contact := OrElse(Get(s.contacts, lidJid), Get(s.contacts, id));
      var number := if contact.Some? then contact.value else None;
      if Truthy(number) then Some(UserPart(number.value)) else None
  }

  function Neutral(s: Session, jid: string): string {
    ToNeutral(jid, id => ResolvePhone(s, id))
  }

  /** toEngineJid. */
  function ToEngine(jid: string): string {
    var p := Parse(jid);
    if p.kind == User then Id(p.userPart, "s.whatsapp.net") else jid
  }

  predicate Digits(s: string) {
    s != "" && forall i :: 0 <= i < |s| ==> '0' <= s[i] <= '9'
  }

  /** Every phone the session knows is a string of digits. */
  ghost predicate DigitPhones(s: Session) {
    && (forall k :: k in s.lidToPn ==> s.lidToPn[k] != "" && Digits(UserPart(s.lidToPn[k])))
    && (forall k :: k in s.contacts && Truthy(s.contacts[k]) ==> Digits(UserPart(s.contacts[k].value)))
    && (forall k :: k in s.cached && Truthy(s.cached[k]) ==> Digits(s.cached[k].value))
  }

  lemma LowerIsLower(s: string)
    ensures IsLower(Lower(s)) && (IsLower(s) <==> Lower(s) == s)
  {
  }

  // ---- Canonical user parts ----

  /** A user part as parseWaId returns it. */
  predicate Canonical(u: string) {
    ':' !in u && IsLower(u) && (u != "" ==> !JsSpace(u[0]))
  }

  predicate PlainDomain(d: string) {
    d != "" && '@' !in d && IsLower(d) && !JsSpace(d[|d| - 1])
  }

  lemma FoldedAlready(s: string)
    requires s != "" && !JsSpace(s[0]) && !JsSpace(s[|s| - 1]) && IsLower(s)
    ensures Folded(s) == s
  {
    assert "" + s + "" == s;
    TrimAround("", s, "", JsSpace);
    LowerIsLower(s);
  }

  lemma PartsFolded(u: string, d: string)
    requires Canonical(u) && PlainDomain(d)
    ensures Folded(Id(u, d)) == Id(u, d)
  {
    FoldedAlready(Id(u, d));
  }

  lemma PartsAt(u: string, d: string)
    requires '@' !in d
    ensures LastIndexOf(Id(u, d), '@') == Some(|u|)
    ensures (Id(u, d))[..|u|] == u && (Id(u, d))[|u| + 1..] == d
  {
    var s := Id(u, d);
    assert s[|u| + 1..] == d;
    LastIndexOfLast(s, '@', |u|);
  }

  lemma SameParts(u: string, d: string, v: string, e: string)
    requires '@' !in d && '@' !in e
    ensures Id(u, d) == Id(v, e) <==> u == v && d == e
  {
    PartsAt(u, d);
    PartsAt(v, e);
  }

  lemma FoldedParts(u: string, d: string)
    requires ':' !in u && '@' !in d
    ensures ParseFolded(Id(u, d)) ==
            if Id(u, d) == Id("status", "broadcast") then Parsed(Status, "status", None) else Parsed(KindOf(d), u, None)
  {
    PartsAt(u, d);
  }

  lemma IsStatus(u: string, d: string)
    requires '@' !in d
    ensures Id(u, d) == Id("status", "broadcast") <==> u == "status" && d == "broadcast"
  {
    SameParts(u, d, "status", "broadcast");
  }

  /** An id made of a canonical user part and a domain is parsed into the two. */
  lemma ParseOfParts(u: string, d: string)
    requires Canonical(u) && PlainDomain(d)
    ensures Parse(Id(u, d)) ==
            if u == "status" && d == "broadcast" then Parsed(Status, u, None) else Parsed(KindOf(d), u, None)
  {
    PartsFolded(u, d);
    FoldedParts(u, d);
    IsStatus(u, d);
  }

  lemma FoldedStart(jid: string)
    ensures IsLower(Folded(jid)) && (Folded(jid) != "" ==> !JsSpace(Folded(jid)[0]))
  {
    var l := TrimLeft(jid, JsSpace);
    var t := Trim(jid, JsSpace);
    LowerIsLower(t);
    assert t <= l;
  }

  /** What parseWaId returns is canonical. */
  lemma ParsedIsCanonical(jid: string)
    requires Parse(jid).kind != Unknown
    ensures Canonical(Parse(jid).userPart)
  {
    var lower := Folded(jid);
    FoldedStart(jid);
    if Parse(jid).kind != Status {
      var at := LastIndexOf(lower, '@').value;
      assert Before(lower[..at], ':') <= lower;
    }
  }

  // ---- The neutral dialect ----

  /** A phone found by the session is digits. */
  lemma ResolvedIsDigits(s: Session, id: string, p: Parsed)
    requires DigitPhones(s) && p.kind == Lid && Truthy(ResolveParsed(s, id, p))
    ensures Canonical(ResolveParsed(s, id, p).value)
  {
  }

  /** An unresolved lid stays unresolved when its device suffix is gone. */
  lemma UnresolvedStays(s: Session, id: string, p: Parsed)
    requires DigitPhones(s) && p.kind == Lid && !Truthy(ResolveParsed(s, id, p))
    ensures !Truthy(ResolveParsed(s, Id(p.userPart, "lid"), Parsed(Lid, p.userPart, None)))
  {
  }

  const domains: set<string> := {"c.us", "g.us", "lid", "newsletter", "broadcast"}

  /** A recognized id becomes a canonical user part in one of the five neutral domains. */
  lemma ReducedForm(jid: string, p: Parsed, phone: Option<string>) returns (u: string, d: string)
    requires p.kind != Unknown && Canonical(p.userPart) && (p.kind == Status ==> p.userPart == "status")
    requires Truthy(phone) ==> Canonical(phone.value)
    ensures d in domains
    ensures Canonical(u) && Reduce(jid, p, phone) == Id(u, d)
    ensures d == "lid" ==> p.kind == Lid && u == p.userPart && !Truthy(phone)
    ensures p.kind == User ==> d == "c.us" && u == p.userPart
  {
    u := p.userPart;
    match p.kind
    case User => d := "c.us";
    case Group => d := "g.us";
    case Lid =>
      if Truthy(phone) {
        u := phone.value;
        d := "c.us";
      } else {
        d := "lid";
      }
    case Status => d := "broadcast";
    case Newsletter => d := "newsletter";
    case Broadcast => d := "broadcast";
  }

  /** What the session store makes of a recognized id. */
  lemma NeutralForm(s: Session, jid: string) returns (u: string, d: string)
    requires DigitPhones(s) && Parse(jid).kind != Unknown
    ensures d in domains && Canonical(u) && Neutral(s, jid) == Id(u, d)
    ensures d == "lid" ==> Parse(jid).kind == Lid && u == Parse(jid).userPart && !Truthy(ResolvePhone(s, jid))
    ensures Parse(jid).kind == User ==> d == "c.us" && u == Parse(jid).userPart
  {
    var p := Parse(jid);
    ParsedIsCanonical(jid);
    var phone := if p.kind == Lid then ResolvePhone(s, jid) else None;
    if Truthy(phone) {
      ResolvedIsDigits(s, jid, p);
    }
    NeutralIsReduced(s, jid);
    u, d := ReducedForm(jid, p, phone);
  }

  lemma NeutralIsReduced(s: Session, jid: string)
    ensures var p := Parse(jid);
            Neutral(s, jid) == Reduce(jid, p, if p.kind == Lid then ResolvePhone(s, jid) else None)
  {
    EmptyIsUnknown();
  }

  lemma EmptyIsUnknown()
    ensures Parse("").kind == Unknown
  {
    assert Folded("") == "";
  }

  lemma DomainsArePlain(d: string)
    requires d in domains || d == "s.whatsapp.net"
    ensures PlainDomain(d) && KindOf(d) != Unknown
  {
  }

  /** Reducing an id to the neutral dialect twice is reducing it once. */
  lemma NeutralIsIdempotent(s: Session, jid: string)
    requires DigitPhones(s)
    ensures Neutral(s, Neutral(s, jid)) == Neutral(s, jid)
  {
    var p := Parse(jid);
    NeutralIsReduced(s, jid);
    if p.kind != Unknown {
      var u, d := NeutralForm(s, jid);
      ReparsedForm(u, d);
      NeutralIsReduced(s, Id(u, d));
      if d == "lid" {
        UnresolvedStays(s, jid, p);
      }
    }
  }

  lemma DomainOfKind(d: string)
    requires d in domains
    ensures match KindOf(d)
            case User => d == "c.us"
            case Group => d == "g.us"
            case Lid => d == "lid"
            case Newsletter => d == "newsletter"
            case _ => KindOf(d) == Broadcast && d == "broadcast"
  {
  }

  /** A neutral id parses into its own parts and reduces to itself, as long as a lid stays unresolved. */
  lemma ReparsedForm(u: string, d: string)
    requires d in domains && Canonical(u)
    ensures var p := Parse(Id(u, d));
            && p.device == None && p.kind != Unknown && (p.kind == Lid <==> d == "lid")
            && (p.kind == Lid ==> p == Parsed(Lid, u, None))
            && Reduce(Id(u, d), p, None) == Id(u, d)
  {
    DomainsArePlain(d);
    ParseOfParts(u, d);
    DomainOfKind(d);
  }

  /** A neutral id of a recognized kind has no device suffix and no raw protocol domain. */
  lemma NeutralIsClean(s: Session, jid: string)
    requires DigitPhones(s) && Parse(jid).kind != Unknown
    ensures ':' !in Neutral(s, jid) && !EndsWith(Neutral(s, jid), "@s.whatsapp.net")
    ensures Parse(Neutral(s, jid)).device == None && Parse(Neutral(s, jid)).kind != Unknown
  {
    var u, d := NeutralForm(s, jid);
    ReparsedForm(u, d);
    NoColon(u, d);
    OtherEnding(u, d);
  }

  /**
   * The neutral id of a recognized id is of the same kind with the same user part, except that a lid whose phone is
   * known becomes the user with that phone; an unrecognized id stays as it is.
   */
  lemma NeutralKeepsKind(s: Session, jid: string)
    requires DigitPhones(s)
    ensures var p, n := Parse(jid), Parse(Neutral(s, jid));
            match p.kind
            case Unknown => Neutral(s, jid) == jid
            case Lid =>
              var phone := ResolvePhone(s, jid);
              if Truthy(phone) then n == Parsed(User, phone.value, None) else n == Parsed(Lid, p.userPart, None)
            case Broadcast =>
              n == Parsed(if p.userPart == "status" then Status else Broadcast, p.userPart, None)
            case _ => n == Parsed(p.kind, p.userPart, None)
  {
    var p := Parse(jid);
    NeutralIsReduced(s, jid);
    if p.kind != Unknown {
      ParsedIsCanonical(jid);
      var phone := if p.kind == Lid then ResolvePhone(s, jid) else None;
      if Truthy(phone) {
        ResolvedIsDigits(s, jid, p);
      }
      ReducedKind(jid, p, phone);
    }
  }

  lemma ReducedKind(jid: string, p: Parsed, phone: Option<string>)
    requires p.kind != Unknown && Canonical(p.userPart) && (p.kind == Status ==> p.userPart == "status")
    requires Truthy(phone) ==> Canonical(phone.value) && p.kind == Lid
    ensures Parse(Reduce(jid, p, phone)) ==
            if Truthy(phone) then Parsed(User, phone.value, None)
            else if p.kind == Broadcast && p.userPart == "status" then Parsed(Status, "status", None)
            else Parsed(p.kind, p.userPart, None)
  {
    DomainKinds();
    match p.kind
    case User => ParsedUser(p.userPart, "c.us");
    case Group => KindParsed(p.userPart, "g.us");
    case Lid =>
      if Truthy(phone) {
        ParsedUser(phone.value, "c.us");
      } else {
        KindParsed(p.userPart, "lid");
      }
    case Status => KindParsed("status", "broadcast");
    case Newsletter => KindParsed(p.userPart, "newsletter");
    case Broadcast => KindParsed(p.userPart, "broadcast");
  }

  lemma DomainKinds()
    ensures KindOf("g.us") == Group && KindOf("lid") == Lid && KindOf("newsletter") == Newsletter
    ensures KindOf("broadcast") == Broadcast
    ensures "g.us" != "broadcast" && "lid" != "broadcast" && "newsletter" != "broadcast"
    ensures "g.us" in domains && "lid" in domains && "newsletter" in domains && "broadcast" in domains
  {
  }

  lemma KindParsed(u: string, d: string)
    requires Canonical(u) && d in domains
    ensures Parse(Id(u, d)) ==
            if u == "status" && d == "broadcast" then Parsed(Status, u, None) else Parsed(KindOf(d), u, None)
  {
    DomainsArePlain(d);
    ParseOfParts(u, d);
  }

  lemma OtherEnding(u: string, d: string)
    requires '@' !in d && d != "s.whatsapp.net"
    ensures !EndsWith(Id(u, d), "@s.whatsapp.net")
  {
    var n := Id(u, d);
    if EndsWith(n, "@s.whatsapp.net") {
      var v := n[..|n| - 15];
      assert n == v + "@s.whatsapp.net";
      assert "@s.whatsapp.net" == "@" + "s.whatsapp.net";
      assert n == Id(v, "s.whatsapp.net");
      SameParts(u, d, v, "s.whatsapp.net");
    }
  }

  lemma NoColon(u: string, d: string)
    requires d in domains && Canonical(u)
    ensures ':' !in Id(u, d) && d != "s.whatsapp.net" && '@' !in d
  {
  }

  lemma ParsedUser(u: string, d: string)
    requires Canonical(u) && (d == "c.us" || d == "s.whatsapp.net")
    ensures Parse(Id(u, d)) == Parsed(User, u, None)
  {
    DomainsArePlain(d);
    ParseOfParts(u, d);
  }

  /** Folding to the engine's dialect loses nothing: the neutral id is the same, and for a user id it is undone. */
  lemma EngineRoundTrip(s: Session, jid: string)
    requires DigitPhones(s)
    ensures Neutral(s, ToEngine(jid)) == Neutral(s, jid)
    ensures Parse(jid).kind == User ==> ToEngine(Neutral(s, jid)) == ToEngine(jid)
  {
    if Parse(jid).kind == User {
      var u, d := NeutralForm(s, jid);
      ParsedUser(u, "c.us");
      ParsedUser(u, "s.whatsapp.net");
      NeutralIsReduced(s, Id(u, "s.whatsapp.net"));
    }
  }

  /** On phone ids the two foldings are inverse to each other. */
  lemma PhoneRoundTrip(s: Session, phone: string)
    requires DigitPhones(s) && Digits(phone)
    ensures ToEngine(Neutral(s, Id(phone, "s.whatsapp.net"))) == Id(phone, "s.whatsapp.net")
    ensures Neutral(s, ToEngine(Id(phone, "c.us"))) == Id(phone, "c.us")
  {
    ParsedUser(phone, "c.us");
    ParsedUser(phone, "s.whatsapp.net");
    NeutralIsReduced(s, Id(phone, "s.whatsapp.net"));
  }

  // ---- The value object agrees exactly on plainly spelled ids ----

  /** No leading blank, a lowercase user part, and a device suffix before the first '@' or only one '@'. */
  predicate PlainlySpelled(raw: string) {
    && (raw != "" ==> !JsSpace(raw[0]))
    && IsLower(UserPart(raw))
    && (':' in Before(raw, '@') || IndexOf(raw, '@') == LastIndexOf(raw, '@'))
  }

  /** WaId.toNeutral gives the adapters' neutral id, except for channel and broadcast ids not plainly spelled. */
  lemma ValueAgrees(jid: string, resolve: Resolver)
    ensures NeutralOf(FromEngineJid(jid, resolve)) == ToNeutral(jid, resolve)
       <==> (Parse(jid).kind in {Newsletter, Broadcast} ==> PlainlySpelled(jid))
  {
    var p := Parse(jid);
    EmptyIsUnknown();
    var phone := if p.kind == Lid then resolve(jid) else None;
    ParsedAgrees(jid, p, phone);
    if p.kind in {Newsletter, Broadcast} {
      ChannelUser(jid);
      UserPartsAgree(jid);
    }
  }

  /** A channel id with a blank in front: the value object keeps the blank, the adapters do not. */
  lemma LeadingBlankDisagrees(u: string, resolve: Resolver)
    requires u != "" && Canonical(u) && '@' !in u
    ensures var jid := " " + Id(u, "newsletter");
            && NeutralOf(FromEngineJid(jid, resolve)) == Id(" " + u, "newsletter")
            && ToNeutral(jid, resolve) == Id(u, "newsletter")
  {
    BlankParsed(u);
    BlankUser(u, "newsletter");
    ChannelForms(" " + Id(u, "newsletter"), u, resolve);
  }

  lemma BlankParsed(u: string)
    requires u != "" && Canonical(u)
    ensures Parse(" " + Id(u, "newsletter")) == Parsed(Newsletter, u, None)
  {
    DomainsArePlain("newsletter");
    BlankIsFolded(u, "newsletter");
    ParseOfParts(u, "newsletter");
  }

  lemma ChannelForms(jid: string, u: string, resolve: Resolver)
    requires jid != "" && Parse(jid) == Parsed(Newsletter, u, None)
    ensures NeutralOf(FromEngineJid(jid, resolve)) == Id(UserPart(jid), "newsletter")
    ensures ToNeutral(jid, resolve) == Id(u, "newsletter")
  {
  }

  /** So " 1@newsletter" has two neutral forms. */
  lemma BlankExample(resolve: Resolver)
    ensures NeutralOf(FromEngineJid(" 1@newsletter", resolve)) == " 1@newsletter"
    ensures ToNeutral(" 1@newsletter", resolve) == "1@newsletter"
  {
    assert " " + Id("1", "newsletter") == " 1@newsletter" && Id(" 1", "newsletter") == " 1@newsletter";
    assert " " + "1" == " 1" && Id("1", "newsletter") == "1@newsletter";
    LeadingBlankDisagrees("1", resolve);
  }

  lemma BlankUser(u: string, d: string)
    requires '@' !in u && ':' !in u
    ensures UserPart(" " + Id(u, d)) == " " + u
  {
    var b, jid := " " + u, " " + Id(u, d);
    assert jid[|b|] == '@' && jid[..|b|] == b;
    IndexOfFirst(jid, '@', |b|);
  }

  lemma BlankIsFolded(u: string, d: string)
    requires u != "" && Canonical(u) && PlainDomain(d)
    ensures Folded(" " + Id(u, d)) == Folded(Id(u, d))
  {
    TrimBlank(Id(u, d));
  }

  lemma TrimBlank(id: string)
    requires id != "" && !JsSpace(id[0])
    ensures Trim(" " + id, JsSpace) == Trim(id, JsSpace)
  {
    assert (" " + id)[1..] == id;
  }

  lemma ChannelUser(jid: string)
    requires Parse(jid).kind in {Newsletter, Broadcast}
    ensures '@' in Folded(jid) && Parse(jid).userPart == FoldedUser(jid)
  {
  }

  lemma ParsedAgrees(jid: string, p: Parsed, phone: Option<string>)
    ensures NeutralOf(FromParsed(jid, p, phone)) == Reduce(jid, p, phone)
       <==> (p.kind in {Newsletter, Broadcast} ==> UserPart(jid) == p.userPart)
  {
    match p.kind
    case Newsletter => SameLocal(UserPart(jid), p.userPart, "newsletter");
    case Broadcast => SameLocal(UserPart(jid), p.userPart, "broadcast");
    case _ =>
  }

  lemma SameLocal(u: string, v: string, d: string)
    ensures Id(u, d) == Id(v, d) <==> u == v
  {
    assert Id(u, d)[..|u|] == u && Id(v, d)[..|v|] == v;
  }

  lemma UserPartsAgree(raw: string)
    requires '@' in Folded(raw)
    ensures UserPart(raw) == FoldedUser(raw) <==> PlainlySpelled(raw)
  {
    if raw != "" && JsSpace(raw[0]) {
      FoldedStart(raw);
      LeadingBlank(raw);
    } else {
      TrimmedUser(raw);
      SameUser(raw);
    }
  }

  /** The user part parseWaId finds. */
  function FoldedUser(raw: string): (u: string)
    requires '@' in Folded(raw)
    ensures u <= Folded(raw)
  {
    Before(Folded(raw)[..LastIndexOf(Folded(raw), '@').value], ':')
  }

  lemma LeadingBlank(raw: string)
    requires raw != "" && JsSpace(raw[0])
    ensures UserPart(raw) != "" && UserPart(raw)[0] == raw[0]
  {
    var b := Before(raw, '@');
    assert raw[|b|..] != raw[0..] ==> b != "";
    assert b != "" && b[0] == raw[0];
    assert Before(b, ':') != "";
  }

  /** Without a leading blank, trimming changes neither the '@'s nor what stands before them. */
  lemma TrimmedUser(raw: string)
    requires '@' in Folded(raw) && !JsSpace(raw[0])
    ensures var at := LastIndexOf(raw, '@'); at.Some? && FoldedUser(raw) == Lower(Before(raw[..at.value], ':'))
  {
    var t := Trim(raw, JsSpace);
    var l := LastIndexOf(Lower(t), '@').value;
    forall i | |t| <= i < |raw| ensures JsSpace(raw[i]) {
      TrimRightCut(raw, JsSpace, i);
    }
    LastSurvives(raw, t, Lower(t), l);
    LowerBefore(raw[..l], Lower(t)[..l]);
  }

  lemma LastSurvives(raw: string, t: string, lower: string, l: nat)
    requires t <= raw && lower == Lower(t) && LastIndexOf(lower, '@') == Some(l)
    requires forall i :: |t| <= i < |raw| ==> JsSpace(raw[i])
    ensures LastIndexOf(raw, '@') == Some(l) && Lower(raw[..l]) == lower[..l]
  {
    assert t[l] == '@';
    forall i | l < i < |raw| ensures raw[i] != '@' {
      if i < |t| {
        assert lower[i] in lower[l + 1..];
      }
    }
    LastIndexOfLast(raw, '@', l);
  }

  lemma LowerBefore(s: string, lower: string)
    requires lower == Lower(s)
    ensures Before(lower, ':') == Lower(Before(s, ':'))
  {
    var b := Before(s, ':');
    assert Lower(b) == lower[..|b|];
    if ':' in s {
      IndexOfFirst(lower, ':', |b|);
    } else {
      assert ':' !in lower;
    }
  }

  lemma SameUser(raw: string)
    requires '@' in raw
    ensures var w := Before(raw[..LastIndexOf(raw, '@').value], ':');
            UserPart(raw) == Lower(w) <==>
            IsLower(UserPart(raw)) && (':' in Before(raw, '@') || IndexOf(raw, '@') == LastIndexOf(raw, '@'))
  {
    var b := Before(raw, '@');
    var l := LastIndexOf(raw, '@').value;
    var w := Before(raw[..l], ':');
    var v := UserPart(raw);
    FirstIsBeforeLast(raw);
    assert v <= raw && w <= raw;
    LowerIsLower(v);
    assert v == Lower(w) <==> v == w && IsLower(v);
    SameCut(raw, b, l);
  }

  lemma FirstIsBeforeLast(raw: string)
    requires '@' in raw
    ensures IndexOf(raw, '@') == Some(|Before(raw, '@')|)
    ensures |Before(raw, '@')| <= LastIndexOf(raw, '@').value
  {
  }

  lemma SameCut(raw: string, b: string, l: nat)
    requires b <= raw && |b| <= l < |raw| && raw[|b|] == '@'
    ensures Before(b, ':') == Before(raw[..l], ':') <==> ':' in b || |b| == l
  {
    var s := raw[..l];
    assert b <= s;
    if ':' in b {
      var v := Before(b, ':');
      assert s[|v|] == ':' && s[..|v|] == v;
      IndexOfFirst(s, ':', |v|);
    } else if |b| < l {
      assert s[|b|] == '@';
      var w := Before(s, ':');
      assert ':' in s ==> s[|w|] !in b;
      assert |w| > |b|;
    } else {
      assert s == b;
    }
  }
}
