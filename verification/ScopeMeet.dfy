/**
 Narrowing is a meet. Authorities are ordered by the role they grant on each resource; the
 narrowed authority is the greatest one below the live authority and below every constraint,
 and it does not depend on how the constraints are ordered, repeated or staged.
 */
module ScopeMeet {
  import opened Wrappers
  import opened Scopes

  /** `a` grants no more than `b` on any resource. */
  ghost predicate Below(a: seq<string>, b: seq<string>) {
    forall kind, id :: Granted(a, kind, id) <= Granted(b, kind, id)
  }

  ghost predicate BelowAll(a: seq<string>, constraints: seq<seq<string>>) {
    forall c :: c in constraints ==> Below(a, c)
  }

  // ---------- what is left on one resource ----------

  lemma {:induction false} LeftIsMin(rank: nat, constraints: seq<seq<string>>, kind: Kind, id: string, x: nat)
    ensures x <= Left(rank, constraints, kind, id) <==>
      x <= rank && forall c :: c in constraints ==> x <= Granted(c, kind, id)
  {
    if constraints != [] {
      LeftIsMin(Min(rank, Granted(constraints[0], kind, id)), constraints[1..], kind, id, x);
      assert constraints == [constraints[0]] + constraints[1..];
      if x <= Left(rank, constraints, kind, id) {
        forall c | c in constraints ensures x <= Granted(c, kind, id) {
          assert c == constraints[0] || c in constraints[1..];
        }
      } else if forall c :: c in constraints ==> x <= Granted(c, kind, id) {
        assert constraints[0] in constraints;
        assert forall c :: c in constraints[1..] ==> c in constraints;
      }
    }
  }

  lemma LeftMonotone(a: nat, b: nat, constraints: seq<seq<string>>, kind: Kind, id: string)
    requires a <= b
    ensures Left(a, constraints, kind, id) <= Left(b, constraints, kind, id)
  {
    var x := Left(a, constraints, kind, id);
    LeftIsMin(a, constraints, kind, id, x);
    LeftIsMin(b, constraints, kind, id, x);
  }

  /** Constraints with the same members leave the same rank, whatever their order or repetition. */
  lemma LeftOfSet(rank: nat, cs: seq<seq<string>>, ds: seq<seq<string>>, kind: Kind, id: string)
    requires forall c :: c in cs <==> c in ds
    ensures Left(rank, cs, kind, id) == Left(rank, ds, kind, id)
  {
    var x, y := Left(rank, cs, kind, id), Left(rank, ds, kind, id);
    LeftIsMin(rank, cs, kind, id, x);
    LeftIsMin(rank, ds, kind, id, x);
    LeftIsMin(rank, cs, kind, id, y);
    LeftIsMin(rank, ds, kind, id, y);
  }

  // ---------- from one scope to the whole authority ----------

  /** What a printed narrowed scope says when it is read back. */
  lemma ReadBack(s: Scope, rank: nat)
    requires PrintableId(s.id) && 1 <= rank <= 3
    ensures Parse(Print(Scope(s.kind, s.id, RoleOf(rank)))) == Some(Scope(s.kind, s.id, RoleOf(rank)))
    ensures Rank(RoleOf(rank)) == rank
  {
    ParsePrint(Scope(s.kind, s.id, RoleOf(rank)));
  }

  lemma {:induction false} GrantedSplit(a: seq<string>, b: seq<string>, kind: Kind, id: string)
    ensures Granted(a + b, kind, id) == if Granted(a, kind, id) >= Granted(b, kind, id)
      then Granted(a, kind, id) else Granted(b, kind, id)
    decreases |a|
  {
    if a == [] {
      assert a + b == b;
    } else {
      assert (a + b)[1..] == a[1..] + b;
      GrantedSplit(a[1..], b, kind, id);
    }
  }

  lemma NarrowScopeGrants(s: Scope, constraints: seq<seq<string>>, kind: Kind, id: string)
    requires PrintableId(s.id)
    ensures WellFormed(NarrowScope(s, constraints))
    ensures Granted(NarrowScope(s, constraints), kind, id) ==
      if kind == s.kind && id == s.id then Left(Rank(s.role), constraints, kind, id) else 0
  {
    var left := Left(Rank(s.role), constraints, s.kind, s.id);
    if left > 0 {
      ReadBack(s, left);
      var t := NarrowScope(s, constraints);
      assert t[1..] == [];
      assert Granted(t[1..], kind, id) == 0;
    }
  }

  /** On every resource, narrowing leaves the least of the live rank and the constraints' ranks. */
  lemma {:induction false} NarrowGrants(authority: seq<string>, constraints: seq<seq<string>>, kind: Kind, id: string)
    requires WellFormed(authority)
    ensures WellFormed(NarrowAll(authority, constraints))
    ensures Granted(NarrowAll(authority, constraints), kind, id)
         == Left(Granted(authority, kind, id), constraints, kind, id)
    decreases |authority|
  {
    if authority == [] {
      ZeroStays(constraints, kind, id);
    } else {
      var s := Parse(authority[0]).value;
      PrintParse(authority[0]);
      var rest := Granted(authority[1..], kind, id);
      NarrowGrants(authority[1..], constraints, kind, id);
      NarrowScopeGrants(s, constraints, kind, id);
      GrantedSplit(NarrowScope(s, constraints), NarrowAll(authority[1..], constraints), kind, id);
      if kind == s.kind && id == s.id {
        if Rank(s.role) > rest {
          LeftMonotone(rest, Rank(s.role), constraints, kind, id);
        } else {
          LeftMonotone(Rank(s.role), rest, constraints, kind, id);
        }
      }
    }
  }

  // ---------- the meet ----------

  /**
   The narrowed authority is below the live one and below every constraint, and every authority
   that is below them all is below it.
   */
  lemma NarrowIsMeet(authority: seq<string>, constraints: seq<seq<string>>, other: seq<string>)
    requires WellFormed(authority)
    ensures var narrowed := NarrowAll(authority, constraints);
      && Below(narrowed, authority) && BelowAll(narrowed, constraints)
      && (Below(other, authority) && BelowAll(other, constraints) <==> Below(other, narrowed))
  {
    var narrowed := NarrowAll(authority, constraints);
    forall kind, id
      ensures Granted(narrowed, kind, id) <= Granted(authority, kind, id)
      ensures forall c :: c in constraints ==> Granted(narrowed, kind, id) <= Granted(c, kind, id)
    {
      NarrowGrants(authority, constraints, kind, id);
      LeftIsMin(Granted(authority, kind, id), constraints, kind, id, Granted(narrowed, kind, id));
    }
    if Below(other, authority) && BelowAll(other, constraints) {
      forall kind, id ensures Granted(other, kind, id) <= Granted(narrowed, kind, id) {
        NarrowGrants(authority, constraints, kind, id);
        LeftIsMin(Granted(authority, kind, id), constraints, kind, id, Granted(other, kind, id));
      }
    }
  }

  /** The text of the result, not only what it grants, is the same for the same set of constraints. */
  lemma {:induction false} ConstraintOrderIsIrrelevant(authority: seq<string>, cs: seq<seq<string>>, ds: seq<seq<string>>)
    requires WellFormed(authority)
    requires forall c :: c in cs <==> c in ds
    ensures NarrowAll(authority, cs) == NarrowAll(authority, ds)
  {
    if authority != [] {
      var s := Parse(authority[0]).value;
      LeftOfSet(Rank(s.role), cs, ds, s.kind, s.id);
      ConstraintOrderIsIrrelevant(authority[1..], cs, ds);
    }
  }

  lemma NarrowTwice(s: Scope, cs: seq<seq<string>>, ds: seq<seq<string>>)
    requires PrintableId(s.id)
    ensures WellFormed(NarrowScope(s, cs))
    ensures NarrowAll(NarrowScope(s, cs), ds) == NarrowScope(s, cs + ds)
  {
    var left := Left(Rank(s.role), cs, s.kind, s.id);
    LeftSplit(Rank(s.role), cs, ds, s.kind, s.id);
    if left == 0 {
      ZeroStays(ds, s.kind, s.id);
    } else {
      ReadBack(s, left);
      NarrowSingle(Print(Scope(s.kind, s.id, RoleOf(left))), ds);
    }
  }

  /** Narrowing by two batches of constraints at once is narrowing by one and then the other. */
  lemma {:induction false} NarrowStaged(authority: seq<string>, cs: seq<seq<string>>, ds: seq<seq<string>>)
    requires WellFormed(authority)
    ensures WellFormed(NarrowAll(authority, cs))
    ensures NarrowAll(authority, cs + ds) == NarrowAll(NarrowAll(authority, cs), ds)
  {
    if authority != [] {
      var s := Parse(authority[0]).value;
      PrintParse(authority[0]);
      NarrowStaged(authority[1..], cs, ds);
      NarrowTwice(s, cs, ds);
      NarrowAppend(NarrowScope(s, cs), NarrowAll(authority[1..], cs), ds);
    }
  }

  /** Narrowing an already narrowed authority by the same constraints changes nothing. */
  lemma NarrowIsIdempotent(authority: seq<string>, constraints: seq<seq<string>>)
    requires WellFormed(authority)
    ensures WellFormed(NarrowAll(authority, constraints))
    ensures NarrowAll(NarrowAll(authority, constraints), constraints) == NarrowAll(authority, constraints)
  {
    NarrowStaged(authority, constraints, constraints);
    ConstraintOrderIsIrrelevant(authority, constraints + constraints, constraints);
  }

  /** With no constraints an authority comes back text for text. */
  lemma {:induction false} UnconstrainedIsIdentity(authority: seq<string>)
    requires WellFormed(authority)
    ensures NarrowAll(authority, []) == authority
  {
    if authority != [] {
      PrintParse(authority[0]);
      UnconstrainedIsIdentity(authority[1..]);
      assert authority == [authority[0]] + authority[1..];
    }
  }
}
