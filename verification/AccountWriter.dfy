/**
 The change-only writer of account rows.

 A snapshot account is written only when its fingerprint differs from the one
 last written, and a degraded read is refused. `Push` specifies one call on
 values; class AccountTablesWriter is the code's form. The table is a map from
 account to row and a write is atomic: it commits for all accounts or for none.
 */
module AccountWriter {
  import opened Prelude

  type Position = string

  /** The `positions` entry of an account: no such key, an explicit null, or a list. */
  datatype Positions = Absent | Null | Book(items: seq<Position>)

  /** `netLiquidation` is the entry of that name in a well-formed summary, trimmed;
      None stands for a summary that is not a dictionary. */
  datatype Summary = Summary(netLiquidation: Option<string>, rest: string)

  datatype Account = Account(id: string, summary: Summary, positions: Positions, positionsOk: bool)

  /** What is written, and what the fingerprint is taken of. Looking a missing key up
      gives null, so Absent and Null are one here. */
  datatype Row = Row(summary: Summary, book: Option<seq<Position>>)

  function Fingerprint(a: Account): Row {
    Row(a.summary, if a.positions.Book? then Some(a.positions.items) else None)
  }

  predicate NonEmpty(r: Row) {
    r.book.Some? && r.book.value != []
  }

  /** The writer's memory and, beside it, the table it writes. */
  datatype State = State(
    written: map<string, Row>,
    nonEmpty: map<string, bool>,
    table: map<string, Row>)

  datatype Refusal = NoNetLiquidation | WentEmpty

  function HadPositions(nonEmpty: map<string, bool>, id: string): bool {
    id in nonEmpty && nonEmpty[id]
  }

  predicate HasNav(a: Account) {
    a.summary.netLiquidation.Some? && a.summary.netLiquidation.value != ""
  }

  function RefuseReason(nonEmpty: map<string, bool>, a: Account): Option<Refusal> {
    if !HasNav(a) then Some(NoNetLiquidation)
    else if HadPositions(nonEmpty, a.id) && a.positions in {Absent, Book([])} && !a.positionsOk then Some(WentEmpty)
    else None
  }

  function Accepted(nonEmpty: map<string, bool>, accounts: seq<Account>): seq<Account> {
    if accounts == [] then []
    else (if RefuseReason(nonEmpty, accounts[0]) == None then [accounts[0]] else [])
         + Accepted(nonEmpty, accounts[1..])
  }

  predicate IsChanged(written: map<string, Row>, a: Account) {
    a.id != "" && (a.id !in written || written[a.id] != Fingerprint(a))
  }

  function Changed(written: map<string, Row>, accounts: seq<Account>): seq<Account> {
    if accounts == [] then []
    else (if IsChanged(written, accounts[0]) then [accounts[0]] else []) + Changed(written, accounts[1..])
  }

  /** What happens to a write: switched off, no connection, failed and rolled back,
      or committed. */
  datatype Outcome = Off | NoConnection | RolledBack | Committed

  /** The two halves of a write: the commit, and what is remembered of it. */
  function Stored(s: State, a: Account): State {
    if a.id == "" then s else s.(table := s.table[a.id := Fingerprint(a)])
  }

  function Remembered(s: State, a: Account): State {
    if a.id == "" then s
    else s.(written := s.written[a.id := Fingerprint(a)], nonEmpty := s.nonEmpty[a.id := NonEmpty(Fingerprint(a))])
  }

  function CommitOne(s: State, a: Account): State {
    Remembered(Stored(s, a), a)
  }

  function CommitAll(s: State, todo: seq<Account>): State
    decreases |todo|
  {
    if todo == [] then s else CommitAll(CommitOne(s, todo[0]), todo[1..])
  }

  function Todo(s: State, accounts: seq<Account>, force: bool): seq<Account> {
    var accepted := Accepted(s.nonEmpty, accounts);
    if force then accepted else Changed(s.written, accepted)
  }

  /** One call of `write`, and how many accounts it reports written. */
  function Push(s: State, accounts: seq<Account>, force: bool, outcome: Outcome): (State, nat) {
    var todo := Todo(s, accounts, force);
    if outcome != Committed || todo == [] then (s, 0) else (CommitAll(s, todo), |todo|)
  }

  datatype Call = Call(accounts: seq<Account>, force: bool, outcome: Outcome)

  function PushAll(s: State, calls: seq<Call>): State
    decreases |calls|
  {
    if calls == [] then s
    else PushAll(Push(s, calls[0].accounts, calls[0].force, calls[0].outcome).0, calls[1..])
  }

  ghost predicate Distinct(accounts: seq<Account>) {
    forall i, j :: 0 <= i < j < |accounts| ==> accounts[i].id != accounts[j].id
  }

  // ---- The writer remembers the table ------------------------------------------------

  /** The memory mirrors what was committed: every remembered fingerprint is the
      row in the table, and the non-empty flag is that row's. */
  ghost predicate Mirrors(s: State) {
    && s.written.Keys == s.nonEmpty.Keys && s.written.Keys <= s.table.Keys
    && (forall id :: id in s.written ==> s.table[id] == s.written[id])
    && (forall id :: id in s.written ==> s.nonEmpty[id] == NonEmpty(s.written[id]))
  }

  lemma {:induction false} CommitMirrors(s: State, todo: seq<Account>)
    requires Mirrors(s)
    ensures Mirrors(CommitAll(s, todo))
    decreases |todo|
  {
    if todo != [] {
      CommitMirrors(CommitOne(s, todo[0]), todo[1..]);
    }
  }

  /** Over every sequence of pushes, forced and not, failed and not. */
  lemma {:induction false} MemoryMirrorsTable(s: State, calls: seq<Call>)
    requires Mirrors(s)
    ensures Mirrors(PushAll(s, calls))
    decreases |calls|
  {
    if calls != [] {
      CommitMirrors(s, Todo(s, calls[0].accounts, calls[0].force));
      MemoryMirrorsTable(Push(s, calls[0].accounts, calls[0].force, calls[0].outcome).0, calls[1..]);
    }
  }

  // ---- What a commit leaves of each account --------------------------------------------

  lemma {:induction false} AcceptedIs(nonEmpty: map<string, bool>, accounts: seq<Account>, a: Account)
    ensures a in Accepted(nonEmpty, accounts) <==> a in accounts && RefuseReason(nonEmpty, a) == None
    decreases |accounts|
  {
    if accounts != [] {
      AcceptedIs(nonEmpty, accounts[1..], a);
    }
  }

  lemma {:induction false} AcceptedDistinct(nonEmpty: map<string, bool>, accounts: seq<Account>)
    requires Distinct(accounts)
    ensures Distinct(Accepted(nonEmpty, accounts))
    decreases |accounts|
  {
    if accounts != [] {
      AcceptedDistinct(nonEmpty, accounts[1..]);
      forall a | a in Accepted(nonEmpty, accounts[1..])
        ensures a.id != accounts[0].id
      {
        AcceptedIs(nonEmpty, accounts[1..], a);
      }
    }
  }

  lemma {:induction false} ChangedIs(written: map<string, Row>, accounts: seq<Account>, a: Account)
    ensures a in Changed(written, accounts) <==> a in accounts && IsChanged(written, a)
    decreases |accounts|
  {
    if accounts != [] {
      ChangedIs(written, accounts[1..], a);
    }
  }

  /** What may be written is accepted. */
  lemma TodoIs(s: State, accounts: seq<Account>, force: bool, a: Account)
    ensures a in Todo(s, accounts, force) <==>
              a in accounts && RefuseReason(s.nonEmpty, a) == None && (force || IsChanged(s.written, a))
  {
    AcceptedIs(s.nonEmpty, accounts, a);
    ChangedIs(s.written, Accepted(s.nonEmpty, accounts), a);
  }

  lemma TodoOfOne(s: State, a: Account, force: bool)
    requires RefuseReason(s.nonEmpty, a) == None
    ensures Todo(s, [a], force) == if force || IsChanged(s.written, a) then [a] else []
  {
    var rest: seq<Account> := [a][1..];
    assert rest == [];
    assert Accepted(s.nonEmpty, [a]) == [a] + Accepted(s.nonEmpty, rest) == [a];
    assert Changed(s.written, [a]) == (if IsChanged(s.written, a) then [a] else []) + Changed(s.written, rest);
  }

  /** The last of these accounts with this id. */
  function LastOf(accounts: seq<Account>, id: string): Option<Account>
    decreases |accounts|
  {
    if accounts == [] then None
    else
      var later := LastOf(accounts[1..], id);
      if later.Some? then later else if accounts[0].id == id then Some(accounts[0]) else None
  }

  lemma {:induction false} LastOfIs(accounts: seq<Account>, id: string)
    ensures LastOf(accounts, id) == None <==> forall a :: a in accounts ==> a.id != id
    ensures LastOf(accounts, id).Some? ==> LastOf(accounts, id).value in accounts && LastOf(accounts, id).value.id == id
    decreases |accounts|
  {
    if accounts != [] {
      LastOfIs(accounts[1..], id);
      assert accounts == [accounts[0]] + accounts[1..];
    }
  }

  lemma {:induction false} LastOfDistinct(accounts: seq<Account>, a: Account)
    requires Distinct(accounts) && a in accounts
    ensures LastOf(accounts, a.id) == Some(a)
    decreases |accounts|
  {
    LastOfIs(accounts[1..], a.id);
    if a in accounts[1..] {
      LastOfDistinct(accounts[1..], a);
    }
  }

  ghost predicate SameEntry(s: State, t: State, id: string) {
    && (id in s.written <==> id in t.written) && (id in s.written ==> s.written[id] == t.written[id])
    && (id in s.nonEmpty <==> id in t.nonEmpty) && (id in s.nonEmpty ==> s.nonEmpty[id] == t.nonEmpty[id])
    && (id in s.table <==> id in t.table) && (id in s.table ==> s.table[id] == t.table[id])
  }

  ghost predicate HasEntry(s: State, id: string, row: Row) {
    && id in s.written && s.written[id] == row
    && id in s.nonEmpty && s.nonEmpty[id] == NonEmpty(row)
    && id in s.table && s.table[id] == row
  }

  /** Of each id a commit leaves the last account, and of the others what there was. */
  lemma {:induction false} CommitKeepsTheLast(s: State, todo: seq<Account>, id: string)
    ensures var t := CommitAll(s, todo);
            if id != "" && LastOf(todo, id).Some? then HasEntry(t, id, Fingerprint(LastOf(todo, id).value))
            else SameEntry(s, t, id)
    decreases |todo|
  {
    if todo != [] {
      CommitKeepsTheLast(CommitOne(s, todo[0]), todo[1..], id);
    }
  }

  // ---- It refines the writer that writes everything ------------------------------------

  /** If any account of an id differs from what was last written, the last one does. */
  ghost predicate LastsAreChanged(written: map<string, Row>, accounts: seq<Account>) {
    forall a :: a in accounts && IsChanged(written, a) ==>
      var last := LastOf(accounts, a.id);
      last.Some? && IsChanged(written, last.value)
  }

  lemma {:induction false} LastOfChanged(written: map<string, Row>, accounts: seq<Account>, id: string)
    requires LastOf(accounts, id).Some? && IsChanged(written, LastOf(accounts, id).value)
    ensures LastOf(Changed(written, accounts), id) == LastOf(accounts, id)
    decreases |accounts|
  {
    var rest := accounts[1..];
    var head := if IsChanged(written, accounts[0]) then [accounts[0]] else [];
    assert Changed(written, accounts) == head + Changed(written, rest);
    assert head != [] ==> (head + Changed(written, rest))[1..] == Changed(written, rest);
    assert head == [] ==> head + Changed(written, rest) == Changed(written, rest);
    if LastOf(rest, id).Some? {
      LastOfChanged(written, rest, id);
    } else {
      LastOfIs(rest, id);
      forall a | a in Changed(written, rest)
        ensures a.id != id
      {
        ChangedIs(written, rest, a);
      }
      LastOfIs(Changed(written, rest), id);
    }
  }

  /** What the filter leaves of one id is what writing everything leaves. */
  lemma FilterAgreesOn(s: State, accounts: seq<Account>, id: string)
    requires Mirrors(s) && LastsAreChanged(s.written, accounts)
    ensures SameEntry(CommitAll(s, Changed(s.written, accounts)), CommitAll(s, accounts), id)
  {
    var todo := Changed(s.written, accounts);
    CommitKeepsTheLast(s, todo, id);
    CommitKeepsTheLast(s, accounts, id);
    LastOfIs(todo, id);
    LastOfIs(accounts, id);
    if LastOf(todo, id).Some? {
      ChangedIs(s.written, accounts, LastOf(todo, id).value);
    }
    if LastOf(accounts, id).Some? && IsChanged(s.written, LastOf(accounts, id).value) {
      LastOfChanged(s.written, accounts, id);
    }
  }

  /** Exactly when the filter is invisible: a push that writes what has changed and one
      that writes everything it accepts leave the same table and memory if and only if,
      of each id with a changed accepted account, the last accepted one is changed. */
  lemma FilterIsInvisibleExactlyWhen(s: State, accounts: seq<Account>)
    requires Mirrors(s)
    ensures Push(s, accounts, false, Committed).0 == Push(s, accounts, true, Committed).0 <==>
              LastsAreChanged(s.written, Accepted(s.nonEmpty, accounts))
  {
    var accepted := Accepted(s.nonEmpty, accounts);
    var todo := Changed(s.written, accepted);
    if LastsAreChanged(s.written, accepted) {
      forall id
        ensures SameEntry(CommitAll(s, todo), CommitAll(s, accepted), id)
      {
        FilterAgreesOn(s, accepted, id);
      }
      SameEntriesSameState(CommitAll(s, todo), CommitAll(s, accepted));
    } else {
      var a :| a in accepted && IsChanged(s.written, a)
               && !(LastOf(accepted, a.id).Some? && IsChanged(s.written, LastOf(accepted, a.id).value));
      FilterShowsOn(s, accepted, a);
    }
  }

  lemma MapsAgree<V>(m: map<string, V>, n: map<string, V>)
    requires forall k :: (k in m <==> k in n) && (k in m ==> m[k] == n[k])
    ensures m == n
  {
    assert m.Keys == n.Keys;
  }

  lemma SameEntriesSameState(s: State, t: State)
    requires forall id :: SameEntry(s, t, id)
    ensures s == t
  {
    forall id
      ensures (id in s.written <==> id in t.written) && (id in s.written ==> s.written[id] == t.written[id])
      ensures (id in s.nonEmpty <==> id in t.nonEmpty) && (id in s.nonEmpty ==> s.nonEmpty[id] == t.nonEmpty[id])
      ensures (id in s.table <==> id in t.table) && (id in s.table ==> s.table[id] == t.table[id])
    {
      assert SameEntry(s, t, id);
    }
    MapsAgree(s.written, t.written);
    MapsAgree(s.nonEmpty, t.nonEmpty);
    MapsAgree(s.table, t.table);
  }

  lemma FilterShowsOn(s: State, accepted: seq<Account>, a: Account)
    requires a in accepted && IsChanged(s.written, a)
    requires LastOf(accepted, a.id).Some? ==> !IsChanged(s.written, LastOf(accepted, a.id).value)
    ensures CommitAll(s, Changed(s.written, accepted)) != CommitAll(s, accepted)
  {
    var todo := Changed(s.written, accepted);
    LastOfIs(accepted, a.id);
    ChangedIs(s.written, accepted, a);
    LastOfIs(todo, a.id);
    ChangedIs(s.written, accepted, LastOf(todo, a.id).value);
    CommitKeepsTheLast(s, todo, a.id);
    CommitKeepsTheLast(s, accepted, a.id);
  }

  lemma DistinctLastsAreChanged(s: State, accounts: seq<Account>)
    requires Distinct(accounts)
    ensures LastsAreChanged(s.written, Accepted(s.nonEmpty, accounts))
  {
    var accepted := Accepted(s.nonEmpty, accounts);
    AcceptedDistinct(s.nonEmpty, accounts);
    forall a | a in accepted
      ensures LastOf(accepted, a.id) == Some(a)
    {
      LastOfDistinct(accepted, a);
    }
  }

  lemma PushIsForcedPush(s: State, accounts: seq<Account>, force: bool, outcome: Outcome)
    requires Mirrors(s) && Distinct(accounts)
    ensures Push(s, accounts, force, outcome).0 == Push(s, accounts, true, outcome).0
  {
    DistinctLastsAreChanged(s, accounts);
    FilterIsInvisibleExactlyWhen(s, accounts);
  }

  function Forced(calls: seq<Call>): seq<Call> {
    seq(|calls|, i requires 0 <= i < |calls| => calls[i].(force := true))
  }

  /** Each push of the sequence, from the memory it finds, is one whose filter is invisible. */
  ghost predicate AllFilterWell(s: State, calls: seq<Call>)
    decreases |calls|
  {
    calls != [] ==>
      var c := calls[0];
      && (c.outcome == Committed && !c.force ==> LastsAreChanged(s.written, Accepted(s.nonEmpty, c.accounts)))
      && AllFilterWell(Push(s, c.accounts, c.force, c.outcome).0, calls[1..])
  }

  /** Refinement: for every sequence of pushes whose filters are invisible one by one,
      repeated ids or not, the change-only writer and the one that writes every accepted
      account have, after each push, the same table and the same memory, through every
      failure and refusal. */
  lemma {:induction false} RefinesWhereFiltersAreInvisible(s: State, calls: seq<Call>)
    requires Mirrors(s) && AllFilterWell(s, calls)
    ensures PushAll(s, calls) == PushAll(s, Forced(calls))
    decreases |calls|
  {
    if calls != [] {
      var c := calls[0];
      FilterIsInvisibleExactlyWhen(s, c.accounts);
      CommitMirrors(s, Todo(s, c.accounts, c.force));
      assert Forced(calls)[1..] == Forced(calls[1..]);
      RefinesWhereFiltersAreInvisible(Push(s, c.accounts, c.force, c.outcome).0, calls[1..]);
    }
  }

  ghost predicate AllDistinct(calls: seq<Call>) {
    forall i :: 0 <= i < |calls| ==> Distinct(calls[i].accounts)
  }

  lemma {:induction false} DistinctFiltersWell(s: State, calls: seq<Call>)
    requires AllDistinct(calls)
    ensures AllFilterWell(s, calls)
    decreases |calls|
  {
    if calls != [] {
      DistinctLastsAreChanged(s, calls[0].accounts);
      assert AllDistinct(calls[1..]);
      DistinctFiltersWell(Push(s, calls[0].accounts, calls[0].force, calls[0].outcome).0, calls[1..]);
    }
  }

  /** With distinct ids that is every sequence. */
  lemma RefinesWriteEverything(s: State, calls: seq<Call>)
    requires Mirrors(s) && AllDistinct(calls)
    ensures PushAll(s, calls) == PushAll(s, Forced(calls))
  {
    DistinctFiltersWell(s, calls);
    RefinesWhereFiltersAreInvisible(s, calls);
  }

  /** A push that fails the condition: one account twice, the second time with what is
      already stored. The filter drops the second and the first stays. */
  lemma DuplicatesBreakIt(s: State, a: Account, b: Account)
    requires Mirrors(s) && a.id == b.id != "" && a.id in s.written && s.written[a.id] == Fingerprint(b)
    requires Fingerprint(a) != Fingerprint(b)
    requires RefuseReason(s.nonEmpty, a) == None && RefuseReason(s.nonEmpty, b) == None
    ensures var kept := Push(s, [a, b], false, Committed).0.table;
            a.id in kept && kept[a.id] == Fingerprint(a)
    ensures var wanted := Push(s, [a, b], true, Committed).0.table;
            a.id in wanted && wanted[a.id] == Fingerprint(b)
  {
    assert [a, b][1..] == [b] && [b][1..] == [] && [a][1..] == [];
    assert Accepted(s.nonEmpty, [b]) == [b] && Accepted(s.nonEmpty, [a, b]) == [a, b];
    assert Changed(s.written, [b]) == [];
    assert Changed(s.written, [a, b]) == [a] + [];
    assert CommitAll(s, [a]) == CommitOne(s, a);
    assert CommitAll(s, [a, b]) == CommitAll(CommitOne(s, a), [b]) == CommitOne(CommitOne(s, a), b);
  }

  // ---- What a push leaves in the table --------------------------------------------------

  /** After a push that commits, or that finds nothing to write, the table agrees
      with the snapshot on every accepted account, and is untouched elsewhere. A
      push that fails leaves the whole state alone, so its accounts are offered
      again by the next push that accepts them. */
  lemma PushMeetsSnapshot(s: State, accounts: seq<Account>, force: bool, outcome: Outcome, a: Account)
    requires Mirrors(s) && Distinct(accounts) && a in accounts && a.id != ""
    ensures var s' := Push(s, accounts, force, outcome).0;
            && (RefuseReason(s.nonEmpty, a) == None && (outcome == Committed || Todo(s, accounts, force) == []) ==>
                  a.id in s'.table && s'.table[a.id] == Fingerprint(a) && !IsChanged(s'.written, a))
            && (RefuseReason(s.nonEmpty, a) != None ==>
                  (a.id in s'.table <==> a.id in s.table) && (a.id in s.table ==> s'.table[a.id] == s.table[a.id]))
            && (outcome != Committed ==> s' == s)
  {
    var accepted := Accepted(s.nonEmpty, accounts);
    AcceptedIs(s.nonEmpty, accounts, a);
    AcceptedDistinct(s.nonEmpty, accounts);
    PushIsForcedPush(s, accounts, force, outcome);
    CommitKeepsTheLast(s, accepted, a.id);
    if RefuseReason(s.nonEmpty, a) != None {
      LastOfDistinct(accounts, a);
      forall b | b in accepted
        ensures b.id != a.id
      {
        AcceptedIs(s.nonEmpty, accounts, b);
        LastOfDistinct(accounts, if b.id == a.id then b else a);
      }
      LastOfIs(accepted, a.id);
    } else {
      LastOfDistinct(accepted, a);
      ChangedIs(s.written, accepted, a);
    }
  }

  /** A forced push sets the table right on every account it accepts, from any
      memory at all, mirroring or not. */
  lemma ForcedPushHeals(s: State, accounts: seq<Account>, a: Account)
    requires Distinct(accounts) && a in accounts && a.id != "" && RefuseReason(s.nonEmpty, a) == None
    ensures var t := Push(s, accounts, true, Committed).0.table;
            a.id in t && t[a.id] == Fingerprint(a)
  {
    AcceptedIs(s.nonEmpty, accounts, a);
    AcceptedDistinct(s.nonEmpty, accounts);
    LastOfDistinct(Accepted(s.nonEmpty, accounts), a);
    CommitKeepsTheLast(s, Accepted(s.nonEmpty, accounts), a.id);
  }

  /** What an unforced push is worth from any memory, mirroring or not: afterwards the
      table has an accepted account's row if and only if the memory took the account for
      changed, or the table had the row already. */
  lemma UnforcedPushIsRightExactlyWhen(s: State, accounts: seq<Account>, a: Account)
    requires Distinct(accounts) && a in accounts && a.id != "" && RefuseReason(s.nonEmpty, a) == None
    ensures var t := Push(s, accounts, false, Committed).0.table;
            a.id in t && t[a.id] == Fingerprint(a) <==>
              IsChanged(s.written, a) || (a.id in s.table && s.table[a.id] == Fingerprint(a))
  {
    var accepted := Accepted(s.nonEmpty, accounts);
    var todo := Changed(s.written, accepted);
    AcceptedIs(s.nonEmpty, accounts, a);
    AcceptedDistinct(s.nonEmpty, accounts);
    LastOfDistinct(accepted, a);
    LastOfIs(todo, a.id);
    CommitKeepsTheLast(s, todo, a.id);
    if IsChanged(s.written, a) {
      LastOfChanged(s.written, accepted, a.id);
    } else if LastOf(todo, a.id).Some? {
      ChangedIs(s.written, accepted, LastOf(todo, a.id).value);
      LastOfDistinct(accepted, LastOf(todo, a.id).value);
    }
  }

  /** Why a failed write has to mean a rolled-back one: when a commit lands and is
      reported failed, and the account then goes back to what was last written,
      the unforced push leaves the stale row in the table and the forced one does not. */
  lemma UnreportedCommitGoesStale(s: State, landed: Account, back: Account)
    requires landed.id == back.id != "" && IsChanged(s.written, landed) && !IsChanged(s.written, back)
    requires RefuseReason(s.nonEmpty, back) == None
    ensures var s' := s.(table := s.table[landed.id := Fingerprint(landed)]);
            && Push(s', [back], false, Committed).0 == s' && s'.table[back.id] != Fingerprint(back)
            && back.id in Push(s', [back], true, Committed).0.table
            && Push(s', [back], true, Committed).0.table[back.id] == Fingerprint(back)
  {
    var s' := s.(table := s.table[landed.id := Fingerprint(landed)]);
    TodoOfOne(s', back, false);
    assert back in [back];
    ForcedPushHeals(s', [back], back);
  }

  /** What the table then holds of the account is its summary and its list of positions,
      and the writer knows whether that list is non-empty. */
  lemma RowIsTheSnapshot(s: State, accounts: seq<Account>, force: bool, outcome: Outcome, a: Account)
    requires Mirrors(s) && Distinct(accounts) && a in accounts && a.id != "" && RefuseReason(s.nonEmpty, a) == None
    requires outcome == Committed || Todo(s, accounts, force) == []
    ensures var s' := Push(s, accounts, force, outcome).0;
            && a.id in s'.table && s'.table[a.id].summary == a.summary
            && s'.table[a.id].book == (if a.positions.Book? then Some(a.positions.items) else None)
            && a.id in s'.nonEmpty && (s'.nonEmpty[a.id] <==> a.positions.Book? && |a.positions.items| > 0)
  {
    PushMeetsSnapshot(s, accounts, force, outcome, a);
    CommitMirrors(s, Todo(s, accounts, force));
  }

  /** Who is offered to the table by a change-only push: exactly the accepted accounts with
      an id that are new to the writer, or whose summary or positions differ from their row.
      And an account is accepted exactly when its summary has a net liquidation and it does
      not, unvouched for, take a non-empty book in the table down to an empty or missing one. */
  lemma OfferedExactlyWhen(s: State, accounts: seq<Account>, a: Account)
    requires Mirrors(s)
    ensures a in Todo(s, accounts, true) <==>
              && a in accounts
              && (exists nav :: a.summary.netLiquidation == Some(nav) && nav != "")
              && (a.id in s.written && s.table[a.id].book.Some? && |s.table[a.id].book.value| > 0 ==>
                    a.positionsOk || a.positions == Null || (a.positions.Book? && |a.positions.items| > 0))
    ensures a in Todo(s, accounts, false) <==>
              && a in Todo(s, accounts, true) && a.id != ""
              && (a.id in s.written ==>
                    || s.table[a.id].summary != a.summary
                    || s.table[a.id].book != (if a.positions.Book? then Some(a.positions.items) else None))
  {
    TodoIs(s, accounts, true, a);
    TodoIs(s, accounts, false, a);
    assert a.positions.Book? && |a.positions.items| == 0 <==> a.positions == Book([]);
  }

  /** What a push reports is how many accounts it wrote: none unless it committed. */
  lemma ReportsWhatItWrote(s: State, accounts: seq<Account>, force: bool, outcome: Outcome)
    requires Distinct(accounts)
    ensures var n := Push(s, accounts, force, outcome).1;
            && (outcome != Committed ==> n == 0)
            && (outcome == Committed ==> n == |set a | a in Todo(s, accounts, force)|)
  {
    AcceptedDistinct(s.nonEmpty, accounts);
    var accepted := Accepted(s.nonEmpty, accounts);
    ChangedDistinct(s.written, accepted);
    DistinctIsItsSet(Todo(s, accounts, force));
  }

  lemma {:induction false} ChangedDistinct(written: map<string, Row>, accounts: seq<Account>)
    requires Distinct(accounts)
    ensures Distinct(Changed(written, accounts))
    decreases |accounts|
  {
    if accounts != [] {
      ChangedDistinct(written, accounts[1..]);
      forall a | a in Changed(written, accounts[1..])
        ensures a.id != accounts[0].id
      {
        ChangedIs(written, accounts[1..], a);
      }
    }
  }

  lemma {:induction false} DistinctIsItsSet(accounts: seq<Account>)
    requires Distinct(accounts)
    ensures |set a | a in accounts| == |accounts|
    decreases |accounts|
  {
    if accounts != [] {
      DistinctIsItsSet(accounts[1..]);
      assert (set a | a in accounts) == {accounts[0]} + (set a | a in accounts[1..]);
    }
  }

  /** A failed account is retried: as long as it differs from what was last written
      it is among the accounts of the next push that accepts it. */
  lemma FailedAccountIsRetried(s: State, accounts: seq<Account>, outcome: Outcome,
        next: seq<Account>, force: bool, a: Account)
    requires outcome != Committed && a in next && a.id != ""
    requires RefuseReason(s.nonEmpty, a) == None && (a.id !in s.written || s.written[a.id] != Fingerprint(a))
    ensures a in Todo(Push(s, accounts, force, outcome).0, next, force)
  {
    TodoIs(s, next, force, a);
  }

  // ---- Overlapping calls ------------------------------------------------------------------

  /** The two halves of a write over a whole list: one commit, then what is remembered. */
  function StoreAll(s: State, todo: seq<Account>): State
    decreases |todo|
  {
    if todo == [] then s else StoreAll(Stored(s, todo[0]), todo[1..])
  }

  function RememberAll(s: State, todo: seq<Account>): State
    decreases |todo|
  {
    if todo == [] then s else RememberAll(Remembered(s, todo[0]), todo[1..])
  }

  lemma {:induction false} StoreKeepsTheLast(s: State, todo: seq<Account>, id: string)
    ensures var t := StoreAll(s, todo);
            && t.written == s.written && t.nonEmpty == s.nonEmpty
            && (if id != "" && LastOf(todo, id).Some?
                then id in t.table && t.table[id] == Fingerprint(LastOf(todo, id).value)
                else (id in t.table <==> id in s.table) && (id in s.table ==> t.table[id] == s.table[id]))
    decreases |todo|
  {
    if todo != [] {
      StoreKeepsTheLast(Stored(s, todo[0]), todo[1..], id);
    }
  }

  lemma {:induction false} RememberKeepsTheLast(s: State, todo: seq<Account>, id: string)
    ensures var t := RememberAll(s, todo);
            && t.table == s.table
            && (if id != "" && LastOf(todo, id).Some?
                then && id in t.written && t.written[id] == Fingerprint(LastOf(todo, id).value)
                     && id in t.nonEmpty && t.nonEmpty[id] == NonEmpty(t.written[id])
                else && (id in t.written <==> id in s.written) && (id in s.written ==> t.written[id] == s.written[id])
                     && (id in t.nonEmpty <==> id in s.nonEmpty)
                     && (id in s.nonEmpty ==> t.nonEmpty[id] == s.nonEmpty[id]))
    decreases |todo|
  {
    if todo != [] {
      RememberKeepsTheLast(Remembered(s, todo[0]), todo[1..], id);
    }
  }

  /** Two calls whose commits both come before either is remembered, in the same order
      or crossed. (If one call ends before the other commits, they follow one another.) */
  function Ordered(s: State, a: seq<Account>, b: seq<Account>): State {
    RememberAll(RememberAll(StoreAll(StoreAll(s, a), b), a), b)
  }

  function Crossed(s: State, a: seq<Account>, b: seq<Account>): State {
    RememberAll(RememberAll(StoreAll(StoreAll(s, a), b), b), a)
  }

  ghost predicate MirrorsAt(s: State, id: string) {
    && (id in s.written <==> id in s.nonEmpty)
    && (id in s.written ==>
          id in s.table && s.table[id] == s.written[id] && s.nonEmpty[id] == NonEmpty(s.written[id]))
  }

  lemma MirrorsPointwise(s: State)
    ensures Mirrors(s) <==> forall id :: MirrorsAt(s, id)
  {
    if forall id :: MirrorsAt(s, id) {
      forall id
        ensures id in s.written ==> id in s.nonEmpty && id in s.table && s.table[id] == s.written[id]
        ensures id in s.nonEmpty ==> id in s.written
        ensures id in s.written ==> s.nonEmpty[id] == NonEmpty(s.written[id])
      {
        assert MirrorsAt(s, id);
      }
      assert s.written.Keys == s.nonEmpty.Keys;
    }
  }

  /** Both calls write this account, and agree on it. */
  ghost predicate AgreeOn(a: seq<Account>, b: seq<Account>, id: string) {
    id != "" && LastOf(a, id).Some? && LastOf(b, id).Some? ==>
      Fingerprint(LastOf(a, id).value) == Fingerprint(LastOf(b, id).value)
  }

  lemma CrossedAt(s: State, a: seq<Account>, b: seq<Account>, id: string)
    requires MirrorsAt(s, id)
    ensures MirrorsAt(Crossed(s, a, b), id) <==> AgreeOn(a, b, id)
    ensures MirrorsAt(Ordered(s, a, b), id)
  {
    var sa := StoreAll(s, a);
    var sb := StoreAll(sa, b);
    StoreKeepsTheLast(s, a, id);
    StoreKeepsTheLast(sa, b, id);
    RememberKeepsTheLast(sb, b, id);
    RememberKeepsTheLast(RememberAll(sb, b), a, id);
    RememberKeepsTheLast(sb, a, id);
    RememberKeepsTheLast(RememberAll(sb, a), b, id);
  }

  /** Crossed calls leave the row of the later commit and the memory of the earlier. */
  lemma CrossedRows(s: State, a: seq<Account>, b: seq<Account>, id: string)
    requires id != "" && LastOf(a, id).Some? && LastOf(b, id).Some?
    ensures var t := Crossed(s, a, b);
            && id in t.table && t.table[id] == Fingerprint(LastOf(b, id).value)
            && id in t.written && t.written[id] == Fingerprint(LastOf(a, id).value)
  {
    var sb := StoreAll(StoreAll(s, a), b);
    StoreKeepsTheLast(StoreAll(s, a), b, id);
    RememberKeepsTheLast(sb, b, id);
    RememberKeepsTheLast(RememberAll(sb, b), a, id);
  }

  /** Exactly when two overlapping calls keep the mirror: always, if they are remembered
      in the order of their commits; and if not, if and only if they agree on every
      account that both write. */
  lemma OverlapMirrorsExactlyWhen(s: State, a: seq<Account>, b: seq<Account>)
    requires Mirrors(s)
    ensures Mirrors(Ordered(s, a, b))
    ensures Mirrors(Crossed(s, a, b)) <==> forall id :: AgreeOn(a, b, id)
  {
    MirrorsPointwise(s);
    MirrorsPointwise(Ordered(s, a, b));
    MirrorsPointwise(Crossed(s, a, b));
    forall id
      ensures MirrorsAt(Crossed(s, a, b), id) <==> AgreeOn(a, b, id)
      ensures MirrorsAt(Ordered(s, a, b), id)
    {
      CrossedAt(s, a, b, id);
    }
  }

  /** Two such calls: both decide from the same memory to write one account, with
      different rows, and are remembered crossed. The filter then takes for unchanged a
      row that is not in the table. */
  lemma OverlapBreaksMirror(s: State, a: Account, b: Account)
    requires Mirrors(s) && a.id == b.id != "" && Fingerprint(a) != Fingerprint(b)
    requires RefuseReason(s.nonEmpty, a) == None && IsChanged(s.written, a)
    requires RefuseReason(s.nonEmpty, b) == None && IsChanged(s.written, b)
    ensures var t := Crossed(s, Todo(s, [a], false), Todo(s, [b], false));
            && !Mirrors(t) && !IsChanged(t.written, a)
            && a.id in t.table && t.table[a.id] == Fingerprint(b)
  {
    TodoOfOne(s, a, false);
    TodoOfOne(s, b, false);
    LastOfDistinct([a], a);
    LastOfDistinct([b], b);
    assert !AgreeOn([a], [b], a.id);
    OverlapMirrorsExactlyWhen(s, [a], [b]);
    CrossedRows(s, [a], [b], a.id);
  }

  // ---- A book is not flattened by a degraded read -----------------------------------------

  /** A committed non-empty book is replaced by an empty or missing one, by any push of
      any kind, repeated ids included, exactly when the push commits and the last account
      of that id among those it writes has no positions. Such an account either vouches
      for the read (`positionsOk`), or its positions are an explicit null, which the
      refusal rule does not look at. */
  lemma BookFlattenedExactlyWhen(s: State, accounts: seq<Account>, force: bool, outcome: Outcome, id: string)
    requires Mirrors(s) && id in s.written && id != "" && NonEmpty(s.written[id])
    ensures var s' := Push(s, accounts, force, outcome).0;
            var last := LastOf(Todo(s, accounts, force), id);
            && id in s'.written
            && (!NonEmpty(s'.written[id]) <==>
                  outcome == Committed && last.Some? && !NonEmpty(Fingerprint(last.value)))
    ensures forall a :: a in Todo(s, accounts, force) && a.id == id && !NonEmpty(Fingerprint(a)) ==> Flattens(a)
  {
    var todo := Todo(s, accounts, force);
    CommitKeepsTheLast(s, todo, id);
    forall a | a in todo && a.id == id && !NonEmpty(Fingerprint(a))
      ensures Flattens(a)
    {
      TodoIs(s, accounts, force, a);
    }
  }

  predicate Flattens(a: Account) {
    HasNav(a) && (a.positions == Null || (a.positions in {Absent, Book([])} && a.positionsOk))
  }

  /** With distinct ids the account can be named before the push. */
  lemma BookFlattenedByReadExactlyWhen(s: State, accounts: seq<Account>, force: bool, outcome: Outcome, id: string)
    requires Mirrors(s) && Distinct(accounts) && id in s.written && id != "" && NonEmpty(s.written[id])
    ensures var s' := Push(s, accounts, force, outcome).0;
            && id in s'.written
            && (!NonEmpty(s'.written[id]) <==>
                  outcome == Committed && exists a :: a in accounts && a.id == id && Flattens(a))
  {
    var todo := Todo(s, accounts, force);
    LastOfIs(todo, id);
    CommitKeepsTheLast(s, todo, id);
    forall a | a in accounts && a.id == id
      ensures LastOf(accounts, id) == Some(a)
      ensures a in todo <==> RefuseReason(s.nonEmpty, a) == None && (force || IsChanged(s.written, a))
    {
      LastOfDistinct(accounts, a);
      TodoIs(s, accounts, force, a);
    }
    if LastOf(todo, id).Some? {
      TodoIs(s, accounts, force, LastOf(todo, id).value);
    }
  }

  /** No account of this id that any of the calls brings vouches for an empty read
      or says null. */
  ghost predicate NeverVouches(calls: seq<Call>, id: string) {
    forall i, a :: 0 <= i < |calls| && a in calls[i].accounts && a.id == id ==>
      a.positions != Null && (a.positions in {Absent, Book([])} ==> !a.positionsOk)
  }

  lemma BookSurvivesPush(s: State, c: Call, id: string)
    requires Mirrors(s) && id != "" && id in s.written && NonEmpty(s.written[id])
    requires forall a :: a in c.accounts && a.id == id ==>
               a.positions != Null && (a.positions in {Absent, Book([])} ==> !a.positionsOk)
    ensures var t := Push(s, c.accounts, c.force, c.outcome).0;
            Mirrors(t) && id in t.written && NonEmpty(t.written[id])
  {
    var todo := Todo(s, c.accounts, c.force);
    CommitMirrors(s, todo);
    CommitKeepsTheLast(s, todo, id);
    LastOfIs(todo, id);
    if LastOf(todo, id).Some? {
      TodoIs(s, c.accounts, c.force, LastOf(todo, id).value);
    }
  }

  /** A committed non-empty book survives every sequence of pushes, repeated ids
      included, that carries no vouched-for empty read of it and no null. */
  lemma {:induction false} BookSurvives(s: State, calls: seq<Call>, id: string)
    requires Mirrors(s) && NeverVouches(calls, id)
    requires id != "" && id in s.written && NonEmpty(s.written[id])
    ensures var t := PushAll(s, calls);
            id in t.written && id in t.table && t.table[id] == t.written[id] && NonEmpty(t.table[id])
    decreases |calls|
  {
    if calls != [] {
      var c := calls[0];
      assert forall a :: a in c.accounts ==> a in calls[0].accounts;
      BookSurvivesPush(s, c, id);
      BookSurvives(Push(s, c.accounts, c.force, c.outcome).0, calls[1..], id);
    }
  }

  // ---- The writer as an object -------------------------------------------------------------

  class AccountTablesWriter {
    var written: map<string, Row>
    var nonEmpty: map<string, bool>
    ghost var table: map<string, Row>

    ghost function Now(): State
      reads this
    {
      State(written, nonEmpty, table)
    }

    constructor (ghost table: map<string, Row>)
      ensures Now() == State(map[], map[], table) && Mirrors(Now())
    {
      written, nonEmpty := map[], map[];
      this.table := table;
    }

    method ChangedOnly(accounts: seq<Account>) returns (out: seq<Account>)
      ensures out == Changed(written, accounts)
    {
      out := [];
      for i := 0 to |accounts|
        invariant out + Changed(written, accounts[i..]) == Changed(written, accounts)
      {
        var a := accounts[i];
        assert accounts[i..][1..] == accounts[i + 1..];
        assert Changed(written, accounts[i..]) ==
               (if IsChanged(written, a) then [a] else []) + Changed(written, accounts[i + 1..]);
        if a.id != "" && (a.id !in written || written[a.id] != Fingerprint(a)) {
          out := out + [a];
        }
      }
    }

    method RefuseDegraded(accounts: seq<Account>) returns (accepted: seq<Account>)
      ensures accepted == Accepted(nonEmpty, accounts)
    {
      accepted := [];
      for i := 0 to |accounts|
        invariant accepted + Accepted(nonEmpty, accounts[i..]) == Accepted(nonEmpty, accounts)
      {
        var a := accounts[i];
        assert accounts[i..][1..] == accounts[i + 1..];
        var reason := RefuseReason(nonEmpty, a);
        if reason == None {
          accepted := accepted + [a];
        }
      }
    }

    /** Remember what has just been committed. */
    method Remember(todo: seq<Account>)
      modifies this
      ensures Now() == CommitAll(old(Now()), todo)
    {
      for i := 0 to |todo|
        invariant CommitAll(Now(), todo[i..]) == CommitAll(old(Now()), todo)
      {
        var a := todo[i];
        assert todo[i..][0] == a && todo[i..][1..] == todo[i + 1..];
        if a.id != "" {
          written := written[a.id := Fingerprint(a)];
          nonEmpty := nonEmpty[a.id := a.positions.Book? && |a.positions.items| > 0];
          table := table[a.id := Fingerprint(a)];
        }
      }
    }

    method Write(accounts: seq<Account>, force: bool, outcome: Outcome) returns (n: nat)
      modifies this
      ensures (Now(), n) == Push(old(Now()), accounts, force, outcome)
      ensures old(Mirrors(Now())) ==> Mirrors(Now())
    {
      if old(Mirrors(Now())) {
        CommitMirrors(Now(), Todo(Now(), accounts, force));
      }
      if outcome == Off {
        return 0;
      }
      var accepted := RefuseDegraded(accounts);
      var todo := accepted;
      if !force {
        todo := ChangedOnly(accepted);
      }
      if todo == [] || outcome == NoConnection || outcome == RolledBack {
        return 0;
      }
      Remember(todo);
      n := |todo|;
    }
  }
}
