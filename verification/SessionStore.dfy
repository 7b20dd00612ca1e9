/**
 The device refresh sessions, one row per refresh-token hash. The columns are NOT NULL, so ''
 stands for "unbound"; old rows hold a whole App scope where new rows hold the bare App id.
 A token stands for its hash.
 */
module SessionStore {
  import opened Wrappers
  import opened Scopes

  datatype Session = Session(
    providerSessionId: string,
    userId: string,
    providerOrganizationId: Option<string>,
    selectedAppSelector: Option<string>)

  datatype Row = Row(
    providerSessionId: string,
    userId: string,
    providerOrganizationId: string,
    selectedAppScope: string)

  type Rows = map<string, Row>

  // ---------- the storage encoding ----------

  function OrEmpty(value: Option<string>): string {
    if value.Some? then value.value else ""
  }

  function OrNull(column: string): Option<string> {
    if column == "" then None else Some(column)
  }

  /** A stored selector in the old form, `app:<id>:<role>`. */
  predicate LegacyScope(stored: string) {
    Parse(stored).Some? && Parse(stored).value.kind == App
  }

  function SelectorFromStoredScope(stored: string): Option<string> {
    if stored == "" then None
    else if LegacyScope(stored) then Some(Parse(stored).value.id)
    else Some(stored)
  }

  function Encode(s: Session): Row {
    Row(s.providerSessionId, s.userId, OrEmpty(s.providerOrganizationId), OrEmpty(s.selectedAppSelector))
  }

  function Decode(r: Row): Session {
    Session(r.providerSessionId, r.userId, OrNull(r.providerOrganizationId), SelectorFromStoredScope(r.selectedAppScope))
  }

  /** A session is read back as it was saved exactly when no part of it looks like something else. */
  lemma StoredSessionReadsBack(s: Session)
    ensures Decode(Encode(s)) == s <==>
      && s.providerOrganizationId != Some("")
      && s.selectedAppSelector != Some("")
      && (s.selectedAppSelector.Some? ==> !LegacyScope(s.selectedAppSelector.value))
  {
    if s.selectedAppSelector.Some? {
      SelectorShrinks(s.selectedAppSelector.value);
    }
  }

  /** What a stored selector stands for is never empty and never in the old form itself. */
  lemma SelectorShrinks(stored: string)
    ensures SelectorFromStoredScope(stored).Some? ==>
      SelectorFromStoredScope(stored).value != "" && !LegacyScope(SelectorFromStoredScope(stored).value)
  {
    if LegacyScope(stored) {
      PrintParse(stored);
      ParsedHasColon(Parse(stored).value.id);
    }
  }

  /** Whatever row is read, saving what was read and reading again changes nothing. */
  lemma ReadSessionIsStable(r: Row)
    ensures Decode(Encode(Decode(r))) == Decode(r)
  {
    SelectorShrinks(r.selectedAppScope);
    StoredSessionReadsBack(Decode(r));
  }

  /** A limit of the encoding, whether or not such ids are ever issued: an App id that reads as an old-form scope comes back as the id inside it. */
  lemma LegacyLookalikeIsLost()
    ensures var s := Session("ps", "u", None, Some("app:a1:owner"));
      Decode(Encode(s)).selectedAppSelector == Some("a1")
  {
    assert "app:a1:owner" == Print(Scope(App, "a1", Owner));
    ParsePrint(Scope(App, "a1", Owner));
  }

  // ---------- the table ----------

  /** Insert, or on a known token refresh the provider session alone: the rest of a row never changes. */
  function Remembered(rows: Rows, token: string, s: Session): Rows {
    rows[token := if token in rows then rows[token].(providerSessionId := s.providerSessionId) else Encode(s)]
  }

  function Stored(rows: Rows, token: string): Option<Session> {
    if token in rows then Some(Decode(rows[token])) else None
  }

  function Rotated(rows: Rows, previous: string, next: string, s: Session): Rows {
    if previous == next then Remembered(rows, next, s) else Remembered(rows, next, s) - {previous}
  }

  class DeviceRefreshSessions {
    var rows: Rows

    constructor ()
      ensures rows == map[]
    {
      rows := map[];
    }

    method Remember(token: string, s: Session)
      modifies this
      ensures rows == Remembered(old(rows), token, s)
    {
      if token in rows {
        rows := rows[token := rows[token].(providerSessionId := s.providerSessionId)];
      } else {
        rows := rows[token := Encode(s)];
      }
    }

    method Lookup(token: string) returns (s: Option<Session>)
      ensures s == Stored(rows, token)
    {
      if token !in rows {
        return None;
      }
      return Some(Decode(rows[token]));
    }

    method Forget(token: string)
      modifies this
      ensures rows == old(rows) - {token}
    {
      rows := rows - {token};
    }

    method Rotate(previous: string, next: string, s: Session)
      modifies this
      ensures rows == Rotated(old(rows), previous, next, s)
    {
      Remember(next, s);
      if previous != next {
        Forget(previous);
      }
    }
  }

  /**
   After a rotation the next token is known and the previous one is gone unless they are the same.
   The next row carries the given session when the token is new; a token that was already known
   keeps its user, Organization and App.
   */
  lemma RotationIs(rows: Rows, previous: string, next: string, s: Session)
    ensures var after := Rotated(rows, previous, next, s);
      && next in after
      && (previous in after <==> previous == next)
      && (next !in rows ==> after[next] == Encode(s))
      && (next in rows ==> after[next] == rows[next].(providerSessionId := s.providerSessionId))
      && (forall t :: t != previous && t != next ==> (t in after <==> t in rows) && (t in rows ==> after[t] == rows[t]))
  {}
}
