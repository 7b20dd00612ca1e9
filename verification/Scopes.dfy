/**
 Membership scopes, `org:<id>:<role>` and `app:<id>:<role>`: printing, parsing, and narrowing a
 live authority by the scope sets a request names.
 */
module Scopes {
  import opened Wrappers

  datatype Kind = Org | App

  datatype Role = Member | Admin | Owner

  datatype Scope = Scope(kind: Kind, id: string, role: Role)

  /** The rank of a role; 0 is the rank of no role at all. */
  function Rank(role: Role): (r: nat)
    ensures 1 <= r <= 3
  {
    match role
    case Member => 1
    case Admin => 2
    case Owner => 3
  }

  function RankOf(role: Option<Role>): nat {
    if role.Some? then Rank(role.value) else 0
  }

  // ---------- printing and parsing ----------

  function KindName(kind: Kind): string {
    match kind
    case Org => "org"
    case App => "app"
  }

  function RoleName(role: Role): string {
    match role
    case Member => "member"
    case Admin => "admin"
    case Owner => "owner"
  }

  /** The shape of an id a printed scope can be read back from. */
  predicate PrintableId(id: string) {
    id != [] && ':' !in id
  }

  function Print(s: Scope): string {
    KindName(s.kind) + ":" + s.id + ":" + RoleName(s.role)
  }

  /** The text before and after the first colon. */
  function Cut(text: string): Option<(string, string)> {
    if text == [] then None
    else if text[0] == ':' then Some(([], text[1..]))
    else match Cut(text[1..])
      case None => None
      case Some((before, after)) => Some(([text[0]] + before, after))
  }

  lemma {:induction false} CutIs(text: string)
    ensures Cut(text).Some? ==> text == Cut(text).value.0 + ":" + Cut(text).value.1 && ':' !in Cut(text).value.0
  {
    if text != [] {
      CutIs(text[1..]);
    }
  }

  lemma {:induction false} CutOf(before: string, after: string)
    requires ':' !in before
    ensures Cut(before + ":" + after) == Some((before, after))
  {
    if before == [] {
      assert before + ":" + after == [':'] + after;
    } else {
      CutOf(before[1..], after);
      assert (before + ":" + after)[1..] == before[1..] + ":" + after;
      assert before == [before[0]] + before[1..];
    }
  }

  function ParseKind(name: string): Option<Kind> {
    if name == "org" then Some(Org)
    else if name == "app" then Some(App)
    else None
  }

  function ParseRole(name: string): Option<Role> {
    if name == "owner" then Some(Owner)
    else if name == "admin" then Some(Admin)
    else if name == "member" then Some(Member)
    else None
  }

  /** The match of `^(org|app):([^:]+):(owner|admin|member)$`. */
  function Parse(text: string): Option<Scope> {
    match Cut(text)
    case None => None
    case Some((kind, rest)) => ParseAfter(ParseKind(kind), rest)
  }

  function ParseAfter(kind: Option<Kind>, rest: string): Option<Scope> {
    match Cut(rest)
    case None => None
    case Some((id, role)) =>
      if kind.Some? && id != [] && ParseRole(role).Some? then Some(Scope(kind.value, id, ParseRole(role).value))
      else None
  }

  /** Printing then parsing gives a scope back exactly when its id is non-empty and has no colon. */
  lemma ParsePrint(s: Scope)
    ensures Parse(Print(s)) == Some(s) <==> PrintableId(s.id)
  {
    if PrintableId(s.id) {
      assert Print(s) == KindName(s.kind) + ":" + (s.id + ":" + RoleName(s.role));
      CutOf(KindName(s.kind), s.id + ":" + RoleName(s.role));
      CutOf(s.id, RoleName(s.role));
      assert ParseAfter(Some(s.kind), s.id + ":" + RoleName(s.role)) == Some(s);
    } else {
      PrintParse(Print(s));
    }
  }

  lemma NamesRead(kind: string, role: string)
    ensures ParseKind(kind).Some? ==> KindName(ParseKind(kind).value) == kind
    ensures ParseRole(role).Some? ==> RoleName(ParseRole(role).value) == role
  {}

  /** Parsing then printing always gives the text back, so a text has at most one reading. */
  lemma PrintParse(text: string)
    ensures Parse(text).Some? ==> Print(Parse(text).value) == text && PrintableId(Parse(text).value.id)
  {
    if Parse(text).Some? {
      CutIs(text);
      var kind, rest := Cut(text).value.0, Cut(text).value.1;
      CutIs(rest);
      var id, role := Cut(rest).value.0, Cut(rest).value.1;
      NamesRead(kind, role);
      assert text == kind + ":" + (id + ":" + role);
      assert kind + ":" + (id + ":" + role) == kind + ":" + id + ":" + role;
    }
  }

  lemma ParsedHasColon(text: string)
    ensures Parse(text).Some? ==> ':' in text
  {
    CutIs(text);
  }

  // ---------- what a list of scopes grants ----------

  predicate Names(text: string, kind: Kind, id: string) {
    Parse(text).Some? && Parse(text).value.kind == kind && Parse(text).value.id == id
  }

  /** The rank a list of scopes grants on one resource: its highest role there, or 0. */
  function Granted(scopes: seq<string>, kind: Kind, id: string): nat {
    if scopes == [] then 0
    else
      var rest := Granted(scopes[1..], kind, id);
      if Names(scopes[0], kind, id) && Rank(Parse(scopes[0]).value.role) > rest
      then Rank(Parse(scopes[0]).value.role) else rest
  }

  /** `Granted` is an upper bound of the roles named, and one of them unless it is 0. */
  lemma {:induction false} GrantedIsHighest(scopes: seq<string>, kind: Kind, id: string)
    ensures forall t :: t in scopes && Names(t, kind, id) ==> Rank(Parse(t).value.role) <= Granted(scopes, kind, id)
    ensures Granted(scopes, kind, id) > 0 ==>
      exists t :: t in scopes && Names(t, kind, id) && Rank(Parse(t).value.role) == Granted(scopes, kind, id)
    ensures Granted(scopes, kind, id) <= 3
  {
    if scopes != [] {
      GrantedIsHighest(scopes[1..], kind, id);
      if Names(scopes[0], kind, id) {
        assert scopes[0] in scopes;
      }
    }
  }

  lemma {:induction false} GrantedAppend(a: seq<string>, t: string, kind: Kind, id: string)
    ensures Granted(a + [t], kind, id) ==
      if Names(t, kind, id) && Rank(Parse(t).value.role) > Granted(a, kind, id)
      then Rank(Parse(t).value.role) else Granted(a, kind, id)
    decreases |a|
  {
    if a == [] {
      assert [t][1..] == [];
    } else {
      assert (a + [t])[1..] == a[1..] + [t];
      GrantedAppend(a[1..], t, kind, id);
    }
  }

  /** The highest role a request names on one resource. */
  method HighestRequestedRole(requested: seq<string>, kind: Kind, id: string) returns (highest: Option<Role>)
    ensures RankOf(highest) == Granted(requested, kind, id)
  {
    highest := None;
    for i := 0 to |requested|
      invariant RankOf(highest) == Granted(requested[..i], kind, id)
    {
      assert requested[..i + 1] == requested[..i] + [requested[i]];
      GrantedAppend(requested[..i], requested[i], kind, id);
      var parsed := Parse(requested[i]);
      if parsed.Some? && parsed.value.kind == kind && parsed.value.id == id
         && (highest.None? || Rank(parsed.value.role) > Rank(highest.value)) {
        highest := Some(parsed.value.role);
      }
    }
    assert requested[..|requested|] == requested;
  }

  // ---------- narrowing ----------

  function RoleOf(rank: nat): Role
    requires 1 <= rank <= 3
  {
    if rank == 1 then Member else if rank == 2 then Admin else Owner
  }

  function Min(a: nat, b: nat): nat {
    if b < a then b else a
  }

  /** The rank left on a resource after every constraint has been applied, 0 when one names it not. */
  function Left(rank: nat, constraints: seq<seq<string>>, kind: Kind, id: string): (r: nat)
    ensures r <= rank
  {
    if constraints == [] then rank
    else Left(Min(rank, Granted(constraints[0], kind, id)), constraints[1..], kind, id)
  }

  function NarrowScope(s: Scope, constraints: seq<seq<string>>): seq<string> {
    var left := Left(Rank(s.role), constraints, s.kind, s.id);
    if left == 0 then [] else [Print(Scope(s.kind, s.id, RoleOf(left)))]
  }

  predicate WellFormed(authority: seq<string>) {
    forall t :: t in authority ==> Parse(t).Some?
  }

  function NarrowAll(authority: seq<string>, constraints: seq<seq<string>>): seq<string>
    requires WellFormed(authority)
  {
    if authority == [] then []
    else NarrowScope(Parse(authority[0]).value, constraints) + NarrowAll(authority[1..], constraints)
  }

  /** The narrowed authority; a live scope that is not a membership scope is an internal error. */
  function Narrow(authority: seq<string>, constraints: seq<seq<string>>): Option<seq<string>> {
    if WellFormed(authority) then Some(NarrowAll(authority, constraints)) else None
  }

  lemma {:induction false} LeftLoop(rank: nat, constraints: seq<seq<string>>, i: nat, kind: Kind, id: string)
    requires i < |constraints|
    ensures Left(rank, constraints[..i + 1], kind, id)
         == Min(Left(rank, constraints[..i], kind, id), Granted(constraints[i], kind, id))
    decreases i
  {
    if i == 0 {
      assert constraints[..1] == [constraints[0]];
      assert constraints[..1][1..] == [];
    } else {
      var next := Min(rank, Granted(constraints[0], kind, id));
      LeftLoop(next, constraints[1..], i - 1, kind, id);
      assert constraints[..i + 1][1..] == constraints[1..][..i];
      assert constraints[..i][1..] == constraints[1..][..i - 1];
    }
  }

  lemma {:induction false} ZeroStays(constraints: seq<seq<string>>, kind: Kind, id: string)
    ensures Left(0, constraints, kind, id) == 0
  {
    if constraints != [] {
      ZeroStays(constraints[1..], kind, id);
    }
  }

  lemma {:induction false} LeftSplit(rank: nat, a: seq<seq<string>>, b: seq<seq<string>>, kind: Kind, id: string)
    ensures Left(rank, a + b, kind, id) == Left(Left(rank, a, kind, id), b, kind, id)
    decreases |a|
  {
    if a == [] {
      assert a + b == b;
    } else {
      assert (a + b)[1..] == a[1..] + b;
      LeftSplit(Min(rank, Granted(a[0], kind, id)), a[1..], b, kind, id);
    }
  }

  /** One live scope against every constraint, stopping at the first that does not name it. */
  method NarrowOne(scope: string, constraints: seq<seq<string>>) returns (narrowed: Option<string>)
    requires Parse(scope).Some?
    ensures NarrowScope(Parse(scope).value, constraints) == if narrowed.Some? then [narrowed.value] else []
  {
    var live := Parse(scope).value;
    var role := live.role;
    for i := 0 to |constraints|
      invariant Rank(role) == Left(Rank(live.role), constraints[..i], live.kind, live.id)
    {
      LeftLoop(Rank(live.role), constraints, i, live.kind, live.id);
      var requestedRole := HighestRequestedRole(constraints[i], live.kind, live.id);
      if requestedRole.None? {
        assert constraints == constraints[..i + 1] + constraints[i + 1..];
        LeftSplit(Rank(live.role), constraints[..i + 1], constraints[i + 1..], live.kind, live.id);
        ZeroStays(constraints[i + 1..], live.kind, live.id);
        return None;
      }
      role := if Rank(requestedRole.value) < Rank(role) then requestedRole.value else role;
    }
    assert constraints[..|constraints|] == constraints;
    return Some(Print(Scope(live.kind, live.id, role)));
  }

  /** Constraint sets the caller left out do not constrain. */
  function Given(sets: seq<Option<seq<string>>>): seq<seq<string>> {
    if sets == [] then []
    else (if sets[0].Some? then [sets[0].value] else []) + Given(sets[1..])
  }

  lemma {:induction false} NarrowAppend(a: seq<string>, b: seq<string>, constraints: seq<seq<string>>)
    requires WellFormed(a) && WellFormed(b)
    ensures WellFormed(a + b)
    ensures NarrowAll(a + b, constraints) == NarrowAll(a, constraints) + NarrowAll(b, constraints)
    decreases |a|
  {
    if a == [] {
      assert a + b == b;
    } else {
      assert (a + b)[1..] == a[1..] + b;
      NarrowAppend(a[1..], b, constraints);
    }
  }

  lemma NarrowSingle(t: string, constraints: seq<seq<string>>)
    requires Parse(t).Some?
    ensures WellFormed([t]) && NarrowAll([t], constraints) == NarrowScope(Parse(t).value, constraints)
  {
    assert [t][1..] == [];
    assert NarrowAll([t][1..], constraints) == [];
  }

  lemma NarrowNext(authority: seq<string>, i: nat, constraints: seq<seq<string>>)
    requires i < |authority| && WellFormed(authority[..i]) && Parse(authority[i]).Some?
    ensures WellFormed(authority[..i + 1])
    ensures NarrowAll(authority[..i + 1], constraints)
         == NarrowAll(authority[..i], constraints) + NarrowScope(Parse(authority[i]).value, constraints)
  {
    NarrowSingle(authority[i], constraints);
    NarrowAppend(authority[..i], [authority[i]], constraints);
    assert authority[..i + 1] == authority[..i] + [authority[i]];
  }

  method NarrowMembershipAuthority(authority: seq<string>, requestedScopeSets: seq<Option<seq<string>>>)
    returns (r: Option<seq<string>>)
    ensures r == Narrow(authority, Given(requestedScopeSets))
  {
    var constraints := Given(requestedScopeSets);
    var out := [];
    for i := 0 to |authority|
      invariant WellFormed(authority[..i])
      invariant out == NarrowAll(authority[..i], constraints)
    {
      if Parse(authority[i]).None? {
        return None;
      }
      NarrowNext(authority, i, constraints);
      var narrowed := NarrowOne(authority[i], constraints);
      out := out + if narrowed.Some? then [narrowed.value] else [];
    }
    assert authority[..|authority|] == authority;
    return Some(out);
  }
}
