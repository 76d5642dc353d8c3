/** Importing a batch of credential files: each item writes a file and then rows, and undoes the file when the rows fail. */
module BatchImport {
  import opened Basics
  import opened Collections
  import M = PoolMembers
  import R = Router

  /** A parsed credential; `rest` is everything but the identity. */
  datatype Auth = Auth(provider: string, email: string, accountId: string, rest: string)
  datatype File = Parsed(auth: Auth) | Unreadable(bytes: string)

  /** The columns an import writes, and those it leaves alone. */
  datatype Card = Card(caption: string, provider: string, email: string, enabled: bool)
  datatype Local = Local(quotaStatus: string, servingStatus: string)
  datatype Account = Account(service: Option<int>, key: string, card: Card, status: string, lastError: string, local: Local)
  datatype Db = Db(accounts: map<int, Account>, members: map<int, M.Row>, diagnosed: set<int>)

  const NEW_LOCAL: Local := Local("unknown", "healthy")

  datatype Item = Rejected(code: string) | Item(key: string, auth: Auth)
  datatype Outcome = Created | Updated | Skipped | Failed(code: string)

  /** Where the transaction breaks off. */
  datatype Stage = BeginDb | UpsertAccount | SelectMaxPosition | InsertPoolMember | SelectPoolMember | AccountDiagnostic | CommitDb

  /** What goes wrong while one item is imported. A failed compensation leaves `debris` in place of the file. */
  datatype Faults = Faults(
    readExisting: bool, parseExisting: bool, lookup: bool, write: bool, template: bool, stage: Option<Stage>, readBack: bool,
    dbCode: string, compensation: bool, debris: Option<File>)

  predicate Commits(f: Faults) {
    !f.readExisting && !f.parseExisting && !f.lookup && !f.write && !f.template && f.stage.None?
  }

  /** Nothing breaks, so nothing needs to be undone. */
  predicate Harmless(f: Faults) { Commits(f) && !f.readBack }

  /** Whatever breaks is undone. */
  predicate Tidy(f: Faults) { Harmless(f) || (!f.compensation && !f.readBack) }

  // ----- The database side -----

  predicate Is(a: Account, service: int, key: string) { a.service == Some(service) && a.key == key }

  function FindAccount(db: Db, service: int, key: string): (r: Option<int>)
    ensures r.Some? ==> r.value in db.accounts && Is(db.accounts[r.value], service, key)
    ensures r.None? ==> forall id :: id in db.accounts ==> !Is(db.accounts[id], service, key)
  {
    var ids := set id | id in db.accounts && Is(db.accounts[id], service, key);
    if ids == {} then
      assert forall id :: id in db.accounts && Is(db.accounts[id], service, key) ==> id in ids;
      None
    else Some(MinOf(ids))
  }

  function Membership(db: Db, pool: int, account: int): set<int> {
    set m | m in db.members && db.members[m].poolId == pool && db.members[m].accountId == account
  }

  function WithAccount(db: Db, service: int, key: string, card: Card): Db {
    var existing := FindAccount(db, service, key);
    if existing.Some? then
      db.(accounts := db.accounts[existing.value := db.accounts[existing.value].(card := card, status := "healthy", lastError := "")])
    else db.(accounts := db.accounts[NextId(db.accounts) := Account(Some(service), key, card, "healthy", "", NEW_LOCAL)])
  }

  function WithMember(db: Db, pool: int, account: int): Db {
    if Membership(db, pool, account) != {} then db
    else db.(members := db.members[NextId(db.members) := M.Row(pool, account, M.NextPosition(db.members, pool), true)])
  }

  function UpsertId(db: Db, service: int, key: string): int {
    var existing := FindAccount(db, service, key);
    if existing.Some? then existing.value else NextId(db.accounts)
  }

  /** The committed effect of one import transaction. */
  function Upsert(db: Db, service: int, pool: int, key: string, card: Card): Db {
    var id := UpsertId(db, service, key);
    var joined := WithMember(WithAccount(db, service, key, card), pool, id);
    joined.(diagnosed := joined.diagnosed + {id})
  }

  datatype Written = Committed(db: Db, account: int, member: int, created: bool) | RolledBack(stage: Stage) | CommittedUnread(db: Db)

  /** The transaction, statement by statement, on a copy that is dropped unless it commits. */
  method UpsertAccountAndMember(db: Db, service: int, pool: int, key: string, card: Card, faults: Faults) returns (w: Written)
    ensures w.RolledBack? <==> faults.stage.Some?
    ensures w.RolledBack? ==> w.stage == faults.stage.value
    ensures w.CommittedUnread? <==> faults.stage.None? && faults.readBack
    ensures w.CommittedUnread? ==> w.db == Upsert(db, service, pool, key, card)
    ensures w.Committed? ==> w.db == Upsert(db, service, pool, key, card)
    ensures w.Committed? ==> (w.created <==> FindAccount(db, service, key).None?)
    ensures w.Committed? ==> Enrolled(w.db, service, pool, key, card, w.account, w.member)
    ensures w.Committed? ==> CommittedAs(db, w.db, service, pool, key, card, w.account, w.member)
    ensures w.CommittedUnread? ==> exists account, member :: CommittedAs(db, w.db, service, pool, key, card, account, member)
  {
    if faults.stage == Some(BeginDb) { return RolledBack(BeginDb); }
    var tx, created := db, false;
    var existing := FindAccount(tx, service, key);
    var id: int;
    if faults.stage == Some(UpsertAccount) { return RolledBack(UpsertAccount); }
    if existing.None? {
      id, created := NextId(tx.accounts), true;
      tx := tx.(accounts := tx.accounts[id := Account(Some(service), key, card, "healthy", "", NEW_LOCAL)]);
    } else {
      id := existing.value;
      tx := tx.(accounts := tx.accounts[id := tx.accounts[id].(card := card, status := "healthy", lastError := "")]);
    }
    if faults.stage == Some(SelectMaxPosition) { return RolledBack(SelectMaxPosition); }
    var position := M.NextPosition(tx.members, pool);
    if faults.stage == Some(InsertPoolMember) { return RolledBack(InsertPoolMember); }
    if Membership(tx, pool, id) == {} {
      tx := tx.(members := tx.members[NextId(tx.members) := M.Row(pool, id, position, true)]);
    }
    if faults.stage == Some(SelectPoolMember) { return RolledBack(SelectPoolMember); }
    MemberExists(WithAccount(db, service, key, card), pool, id);
    var member := MinOf(Membership(tx, pool, id));
    if faults.stage == Some(AccountDiagnostic) { return RolledBack(AccountDiagnostic); }
    tx := tx.(diagnosed := tx.diagnosed + {id});
    assert faults.stage.Some? ==> faults.stage.value.CommitDb?;
    if faults.stage == Some(CommitDb) { return RolledBack(CommitDb); }
    UpsertIsCommitted(db, service, pool, key, card, member);
    if faults.readBack { return CommittedUnread(tx); }
    return Committed(tx, id, member, created);
  }

  lemma MemberExists(db: Db, pool: int, account: int)
    ensures Membership(WithMember(db, pool, account), pool, account) != {}
  {
    if Membership(db, pool, account) == {} {
      assert NextId(db.members) in Membership(WithMember(db, pool, account), pool, account);
    }
  }

  /** What a committed import did to the tables, row by row. A known account keeps everything but the imported columns, its
      status and its last error; a new one starts healthy. An account outside the pool gets one new row there, enabled and
      behind all others; no other membership appears. */
  ghost predicate CommittedAs(before: Db, after: Db, service: int, pool: int, key: string, card: Card, account: int, member: int) {
    && account in after.accounts && member in after.members
    && (if exists id :: id in before.accounts && Is(before.accounts[id], service, key) then
          && account in before.accounts && Is(before.accounts[account], service, key)
          && after.accounts == before.accounts[account := before.accounts[account].(card := card, status := "healthy", lastError := "")]
        else
          && account !in before.accounts
          && after.accounts == before.accounts[account := Account(Some(service), key, card, "healthy", "", Local("unknown", "healthy"))])
    && (if InPool(before, pool, account) then after.members == before.members && after.members[member].accountId == account && after.members[member].poolId == pool
        else
          && member !in before.members
          && after.members == before.members[member := M.Row(pool, account, M.NextPosition(before.members, pool), true)]
          && (forall m :: m in before.members && before.members[m].poolId == pool ==> before.members[m].position < after.members[member].position))
    && after.diagnosed == before.diagnosed + {account}
  }

  ghost predicate InPool(db: Db, pool: int, account: int) {
    exists m :: m in db.members && db.members[m].poolId == pool && db.members[m].accountId == account
  }

  lemma InPoolIsMembership(db: Db, pool: int, account: int)
    ensures InPool(db, pool, account) <==> Membership(db, pool, account) != {}
  {
    if InPool(db, pool, account) {
      var m :| m in db.members && db.members[m].poolId == pool && db.members[m].accountId == account;
      assert m in Membership(db, pool, account);
    }
    if Membership(db, pool, account) != {} {
      var m := SomeElement(Membership(db, pool, account));
      assert m in db.members && db.members[m].poolId == pool && db.members[m].accountId == account;
    }
  }

  lemma UpsertIsCommitted(db: Db, service: int, pool: int, key: string, card: Card, member: int)
    requires member in Membership(Upsert(db, service, pool, key, card), pool, UpsertId(db, service, key))
    ensures CommittedAs(db, Upsert(db, service, pool, key, card), service, pool, key, card, UpsertId(db, service, key), member)
  {
    var id := UpsertId(db, service, key);
    var joined := WithAccount(db, service, key, card);
    assert joined.members == db.members;
    InPoolIsMembership(db, pool, id);
    assert Membership(joined, pool, id) == Membership(db, pool, id);
  }

  /** Once imported into a pool it was not in, the account is the last member that the cache loads for the pool, and open
      to every query that does not exclude it. */
  lemma ImportedIsServed(before: Db, after: Db, service: int, pool: int, key: string, card: Card, account: int, member: int,
                         s: seq<R.Member>, t: seq<R.Member>, q: R.Query)
    requires CommittedAs(before, after, service, pool, key, card, account, member) && !InPool(before, pool, account)
    requires M.Cached(before.members, pool, s) && M.Cached(after.members, pool, t) && account !in q.exclude
    ensures |t| == |s| + 1 && t[..|s|] == s && t[|s|].accountId == account && R.Open(q, t[|s|])
  {
    M.AddedLandsLast(before.members, pool, account, member, s, t);
    assert t[|s|] in t;
  }

  /** The account is there under its key with the imported columns, in the pool, and has a diagnostic row. */
  ghost predicate Enrolled(db: Db, service: int, pool: int, key: string, card: Card, account: int, member: int) {
    && account in db.accounts && Is(db.accounts[account], service, key)
    && db.accounts[account].card == card && db.accounts[account].status == "healthy"
    && member in db.members && db.members[member].poolId == pool && db.members[member].accountId == account
    && account in db.diagnosed
  }

  /** An import touches its own account only, and no existing membership. */
  lemma UpsertFrame(db: Db, service: int, pool: int, key: string, card: Card)
    ensures var after := Upsert(db, service, pool, key, card);
      && (forall id :: id in db.accounts && !Is(db.accounts[id], service, key) ==> id in after.accounts && after.accounts[id] == db.accounts[id])
      && (forall id :: id in db.accounts ==> id in after.accounts && after.accounts[id].local == db.accounts[id].local)
      && (forall m :: m in db.members ==> m in after.members && after.members[m] == db.members[m])
  {
  }

  /** Looking up another key finds what it found before; looking up this one finds it. */
  lemma UpsertLookup(db: Db, service: int, pool: int, key: string, card: Card, other: string)
    ensures FindAccount(Upsert(db, service, pool, key, card), service, other).Some?
       <==> other == key || FindAccount(db, service, other).Some?
  {
    var after := Upsert(db, service, pool, key, card);
    var id := UpsertId(db, service, key);
    assert id in after.accounts && Is(after.accounts[id], service, key);
    if FindAccount(db, service, other).Some? {
      var a := FindAccount(db, service, other).value;
      assert a in after.accounts && Is(after.accounts[a], service, other);
    }
    if FindAccount(after, service, other).Some? {
      var a := FindAccount(after, service, other).value;
      assert a == id || (a in db.accounts && Is(db.accounts[a], service, other));
    }
  }

  // ----- One item -----

  /** Both files name an e-mail, or both an account id, and they differ. */
  predicate IdentityMismatch(existing: Auth, incoming: Auth) {
    var e, i := TrimSpace(existing.email), TrimSpace(incoming.email);
    var f, j := TrimSpace(existing.accountId), TrimSpace(incoming.accountId);
    (e != "" && i != "" && !EqualFold(e, i)) || (f != "" && j != "" && f != j)
  }

  predicate Mismatched(files: map<string, File>, key: string, auth: Auth) {
    key in files && files[key].Parsed? && IdentityMismatch(files[key].auth, auth)
  }

  /** Two e-mails clash when both are there and differ beyond case and surrounding spaces; two account ids when both are
      there and differ beyond surrounding spaces; nothing else clashes. */
  lemma ClashMeans(existing: Auth, incoming: Auth)
    ensures TrimSpace(existing.email) != "" && TrimSpace(incoming.email) != "" && Fold(TrimSpace(existing.email)) != Fold(TrimSpace(incoming.email)) ==>
      IdentityMismatch(existing, incoming)
    ensures TrimSpace(existing.accountId) != "" && TrimSpace(incoming.accountId) != "" && TrimSpace(existing.accountId) != TrimSpace(incoming.accountId) ==>
      IdentityMismatch(existing, incoming)
    ensures IdentityMismatch(existing, incoming) ==>
      || (TrimSpace(existing.email) != "" && TrimSpace(incoming.email) != "" && Fold(TrimSpace(existing.email)) != Fold(TrimSpace(incoming.email)))
      || (TrimSpace(existing.accountId) != "" && TrimSpace(incoming.accountId) != "" && TrimSpace(existing.accountId) != TrimSpace(incoming.accountId))
  {
  }

  datatype Where = Where(service: int, pool: int, template: Auth -> Card)

  function Imported(w: Where, db: Db, item: Item): Db
    requires item.Item?
  {
    Upsert(db, w.service, w.pool, item.key, w.template(item.auth))
  }

  function Saved(files: map<string, File>, item: Item): map<string, File>
    requires item.Item?
  {
    files[item.key := Parsed(item.auth)]
  }

  /** A successful item stores its credential under its key, and nothing else changes among the files. */
  lemma SavedMeans(files: map<string, File>, item: Item, key: string)
    requires item.Item?
    ensures item.key in Saved(files, item) && Saved(files, item)[item.key] == Parsed(item.auth)
    ensures key != item.key ==> (key in Saved(files, item) <==> key in files) && (key in files ==> Saved(files, item)[key] == files[key])
  {
  }

  /** Its rows are those of a committed import of that key into that pool, with the columns made from the credential. */
  lemma ImportedMeans(w: Where, db: Db, item: Item)
    requires item.Item?
    ensures exists account, member ::
      CommittedAs(db, Imported(w, db, item), w.service, w.pool, item.key, w.template(item.auth), account, member)
  {
    var card := w.template(item.auth);
    var id := UpsertId(db, w.service, item.key);
    MemberExists(WithAccount(db, w.service, item.key, card), w.pool, id);
    var after := Upsert(db, w.service, w.pool, item.key, card);
    assert Membership(after, w.pool, id) == Membership(WithMember(WithAccount(db, w.service, item.key, card), w.pool, id), w.pool, id);
    var member := SomeElement(Membership(after, w.pool, id));
    UpsertIsCommitted(db, w.service, w.pool, item.key, card, member);
    assert after == Imported(w, db, item);
    assert CommittedAs(db, Imported(w, db, item), w.service, w.pool, item.key, card, id, member);
  }

  /** What one item does when nothing breaks. */
  function Verdict(w: Where, files: map<string, File>, db: Db, item: Item): Outcome
    requires item.Item?
  {
    if Mismatched(files, item.key, item.auth) then Failed("identity_mismatch")
    else if FindAccount(db, w.service, item.key).None? then Created
    else Updated
  }

  /** What one item comes to, given what breaks, whether the stored identity clashes, and whether the account is known. */
  function OutcomeOf(f: Faults, clash: bool, known: bool): Outcome {
    if f.readExisting then Failed("read_existing_failed")
    else if clash && !f.parseExisting then Failed("identity_mismatch")
    else if f.lookup then Failed("lookup_failed")
    else if f.write then Failed("write_failed")
    else if f.template then Failed(if f.compensation then "compensation_failed" else "upsert_failed")
    else if f.stage.Some? || f.readBack then
      Failed(if f.compensation then "compensation_failed" else if f.dbCode != "" then f.dbCode else "pool_member_failed")
    else if known then Updated
    else Created
  }

  predicate Succeeded(o: Outcome) { o.Created? || o.Updated? }

  /** When the account cannot be read back after the commit the item fails, and its row stays. */
  lemma UnreadRowStays(w: Where, db: Db, item: Item)
    requires item.Item? && FindAccount(db, w.service, item.key).None?
    ensures FindAccount(Imported(w, db, item), w.service, item.key).Some? && Imported(w, db, item) != db
  {
    UpsertLookup(db, w.service, w.pool, item.key, w.template(item.auth), item.key);
  }

  // ----- Batches -----

  datatype Summary = Summary(created: nat, updated: nat, skipped: nat, failed: nat)

  function Add(s: Summary, o: Outcome): Summary {
    match o
    case Created => s.(created := s.created + 1)
    case Updated => s.(updated := s.updated + 1)
    case Skipped => s.(skipped := s.skipped + 1)
    case Failed(_) => s.(failed := s.failed + 1)
  }

  function Count(outcomes: seq<Outcome>): (s: Summary)
    ensures s.created + s.updated + s.skipped + s.failed == |outcomes|
  {
    if outcomes == [] then Summary(0, 0, 0, 0) else Add(Count(outcomes[..|outcomes| - 1]), outcomes[|outcomes| - 1])
  }

  /** The indices at which the outcomes are of a kind: 0 created, 1 updated, 2 skipped, 3 failed. */
  function Kind(o: Outcome): int { if o == Created then 0 else if o == Updated then 1 else if o == Skipped then 2 else 3 }

  ghost function Those(outcomes: seq<Outcome>, kind: int): set<int> { set i | 0 <= i < |outcomes| && Kind(outcomes[i]) == kind }

  lemma ThoseStep(front: seq<Outcome>, o: Outcome, kind: int)
    ensures |Those(front + [o], kind)| == |Those(front, kind)| + if Kind(o) == kind then 1 else 0
  {
    var last := if Kind(o) == kind then {|front|} else {};
    forall i ensures i in Those(front + [o], kind) <==> i in Those(front, kind) || i in last {
      assert 0 <= i < |front| ==> (front + [o])[i] == front[i];
    }
    assert Those(front + [o], kind) == Those(front, kind) + last;
  }

  /** Each counter is the number of items that ended so. */
  lemma {:induction false} CountMeans(outcomes: seq<Outcome>)
    ensures Count(outcomes).created == |Those(outcomes, 0)| && Count(outcomes).updated == |Those(outcomes, 1)|
    ensures Count(outcomes).skipped == |Those(outcomes, 2)| && Count(outcomes).failed == |Those(outcomes, 3)|
    decreases |outcomes|
  {
    if outcomes != [] {
      var front, o := outcomes[..|outcomes| - 1], outcomes[|outcomes| - 1];
      assert outcomes == front + [o];
      CountMeans(front);
      ThoseStep(front, o, 0);
      ThoseStep(front, o, 1);
      ThoseStep(front, o, 2);
      ThoseStep(front, o, 3);
    }
  }

  lemma CountStep(outcomes: seq<Outcome>, o: Outcome)
    ensures Count(outcomes + [o]) == Add(Count(outcomes), o)
  {
    assert (outcomes + [o])[..|outcomes|] == outcomes;
  }

  /** An earlier item of the batch has the same key. */
  ghost predicate Repeated(items: seq<Item>, i: nat)
    requires i < |items|
  {
    items[i].Item? && exists j :: 0 <= j < i && items[j].Item? && items[j].key == items[i].key
  }

  /** What item i will come to, judged from the state before the batch. */
  ghost function Forecast(w: Where, files: map<string, File>, db: Db, items: seq<Item>, i: nat): Outcome
    requires i < |items|
  {
    if items[i].Rejected? then Failed(items[i].code)
    else if Repeated(items, i) then Skipped
    else Verdict(w, files, db, items[i])
  }

  /** What the preview says of item i: the same without the identity check. */
  ghost function Preview(service: int, db: Db, items: seq<Item>, i: nat): Outcome
    requires i < |items|
  {
    if items[i].Rejected? then Failed(items[i].code)
    else if Repeated(items, i) then Skipped
    else if FindAccount(db, service, items[i].key).None? then Created
    else Updated
  }

  /** Item i is the first of its key and clashes with the file already there. */
  ghost predicate Clashes(files: map<string, File>, items: seq<Item>, i: nat)
    requires i < |items|
  {
    items[i].Item? && !Repeated(items, i) && Mismatched(files, items[i].key, items[i].auth)
  }

  ghost predicate SeenExactly(seen: set<string>, items: seq<Item>, n: nat)
    requires n <= |items|
  {
    forall k :: k in seen <==> exists j :: 0 <= j < n && items[j].Item? && items[j].key == k
  }

  lemma SeenStep(seen: set<string>, items: seq<Item>, n: nat)
    requires n < |items| && SeenExactly(seen, items, n)
    ensures SeenExactly(if items[n].Item? then seen + {items[n].key} else seen, items, n + 1)
    ensures items[n].Item? ==> (items[n].key in seen <==> Repeated(items, n))
  {
  }

  /** Files and rows after only the successful items of the batch were imported. */
  function Replay(w: Where, files: map<string, File>, db: Db, items: seq<Item>, outcomes: seq<Outcome>): (map<string, File>, Db)
    requires |outcomes| <= |items|
    decreases |outcomes|
  {
    if outcomes == [] then (files, db)
    else
      var n := |outcomes| - 1;
      var sofar := Replay(w, files, db, items, outcomes[..n]);
      Effect(w, sofar.0, sofar.1, items[n], outcomes[n])
  }

  lemma ReplayStep(w: Where, files: map<string, File>, db: Db, items: seq<Item>, outcomes: seq<Outcome>, o: Outcome)
    requires |outcomes| < |items|
    ensures var sofar := Replay(w, files, db, items, outcomes);
      Replay(w, files, db, items, outcomes + [o]) == Effect(w, sofar.0, sofar.1, items[|outcomes|], o)
  {
    assert (outcomes + [o])[..|outcomes|] == outcomes;
  }

  /** Keys the batch has not reached look as they did before it. */
  ghost predicate Pristine(service: int, files0: map<string, File>, db0: Db, files: map<string, File>, db: Db, key: string) {
    && (key in files <==> key in files0) && (key in files ==> files[key] == files0[key])
    && (FindAccount(db, service, key).Some? <==> FindAccount(db0, service, key).Some?)
  }

  lemma PristineStays(w: Where, files0: map<string, File>, db0: Db, files: map<string, File>, db: Db, item: Item, key: string)
    requires Pristine(w.service, files0, db0, files, db, key) && item.Item? && item.key != key
    ensures Pristine(w.service, files0, db0, Saved(files, item), Imported(w, db, item), key)
    ensures Pristine(w.service, files0, db0, files, Imported(w, db, item), key)
  {
    UpsertLookup(db, w.service, w.pool, item.key, w.template(item.auth), key);
  }

  /** Every key not yet reached is pristine. */
  ghost predicate Beyond(service: int, files0: map<string, File>, db0: Db, files: map<string, File>, db: Db, seen: set<string>) {
    forall k :: k !in seen ==> Pristine(service, files0, db0, files, db, k)
  }

  lemma BeyondStays(w: Where, files0: map<string, File>, db0: Db, files: map<string, File>, db: Db, item: Item, seen: set<string>)
    requires Beyond(w.service, files0, db0, files, db, seen) && item.Item?
    ensures Beyond(w.service, files0, db0, Saved(files, item), Imported(w, db, item), seen + {item.key})
    ensures Beyond(w.service, files0, db0, files, db, seen + {item.key})
  {
    forall k | k !in seen + {item.key} ensures Pristine(w.service, files0, db0, Saved(files, item), Imported(w, db, item), k) {
      PristineStays(w, files0, db0, files, db, item, k);
    }
  }

  lemma PristineVerdict(w: Where, files0: map<string, File>, db0: Db, files: map<string, File>, db: Db, item: Item)
    requires item.Item? && Pristine(w.service, files0, db0, files, db, item.key)
    ensures Verdict(w, files, db, item) == Verdict(w, files0, db0, item)
  {
  }

  function PutBack(files: map<string, File>, key: string, content: Option<File>): map<string, File> {
    if content.Some? then files[key := content.value] else files - {key}
  }

  /** Putting back what was there undoes the write; putting anything back touches this key only. */
  lemma PutBackMeans(files: map<string, File>, item: Item, content: Option<File>)
    requires item.Item?
    ensures content == (if item.key in files then Some(files[item.key]) else None) ==> PutBack(Saved(files, item), item.key, content) == files
    ensures SameElsewhere(files, PutBack(Saved(files, item), item.key, content), item.key) && SameElsewhere(files, Saved(files, item), item.key)
  {
  }

  ghost predicate SameElsewhere(files: map<string, File>, files': map<string, File>, key: string) {
    forall k :: k != key ==> (k in files' <==> k in files) && (k in files' ==> files'[k] == files[k])
  }

  class Importer {
    var files: map<string, File>
    var db: Db

    constructor (files: map<string, File>, db: Db)
      ensures this.files == files && this.db == db
    {
      this.files, this.db := files, db;
    }

    /** Puts back what was at the key; a failure leaves `debris`. */
    method RollbackAuthFile(key: string, before: Option<File>, faults: Faults) returns (ok: bool)
      modifies this`files
      ensures ok <==> !faults.compensation
      ensures files == PutBack(old(files), key, if ok then before else faults.debris)
    {
      files := PutBack(files, key, if faults.compensation then faults.debris else before);
      return !faults.compensation;
    }

    /** Writes the file, then the rows; the file is put back if the rows fail. */
    method StoreItem(w: Where, item: Item, before: Option<File>, existing: Option<int>, faults: Faults) returns (outcome: Outcome)
      requires item.Item? && !faults.readExisting && !faults.lookup && !faults.write
      requires before == (if item.key in files then Some(files[item.key]) else None) && existing == FindAccount(db, w.service, item.key)
      modifies this
      ensures outcome == OutcomeOf(faults, false, existing.Some?)
      ensures Succeeded(outcome) ==> files == Saved(old(files), item) && db == Imported(w, old(db), item)
      ensures outcome.Failed? && !faults.compensation ==> files == old(files)
      ensures outcome.Failed? && !faults.readBack ==> db == old(db)
      ensures outcome.Failed? && db != old(db) ==> db == Imported(w, old(db), item)
      ensures !faults.template && faults.stage.None? && faults.readBack ==> db == Imported(w, old(db), item)
      ensures SameElsewhere(old(files), files, item.key)
    {
      PutBackMeans(files, item, before);
      PutBackMeans(files, item, faults.debris);
      files := Saved(files, item);
      if faults.template {
        var undone := RollbackAuthFile(item.key, before, faults);
        return Failed(if undone then "upsert_failed" else "compensation_failed");
      }
      var written := UpsertAccountAndMember(db, w.service, w.pool, item.key, w.template(item.auth), faults);
      if !written.Committed? {
        if written.CommittedUnread? { db := written.db; }
        var undone := RollbackAuthFile(item.key, before, faults);
        return Failed(if !undone then "compensation_failed" else if faults.dbCode != "" then faults.dbCode else "pool_member_failed");
      }
      db := written.db;
      return if written.created || existing.None? then Created else Updated;
    }

    method ImportSingle(w: Where, item: Item, faults: Faults) returns (outcome: Outcome)
      requires item.Item?
      modifies this
      ensures Succeeded(outcome) || outcome.Failed?
      ensures Succeeded(outcome) ==> files == Saved(old(files), item) && db == Imported(w, old(db), item)
      ensures Succeeded(outcome) ==> (outcome.Created? <==> FindAccount(old(db), w.service, item.key).None?)
      ensures outcome.Failed? && (!faults.compensation || Harmless(faults)) ==> files == old(files)
      ensures outcome.Failed? && !faults.readBack ==> db == old(db)
      ensures outcome.Failed? && db != old(db) ==> db == Imported(w, old(db), item)
      ensures Commits(faults) && faults.readBack && !Mismatched(old(files), item.key, item.auth) ==> outcome.Failed? && db == Imported(w, old(db), item)
      ensures SameElsewhere(old(files), files, item.key)
      ensures Harmless(faults) ==> outcome == Verdict(w, old(files), old(db), item)
      ensures outcome == OutcomeOf(faults, Mismatched(old(files), item.key, item.auth), FindAccount(old(db), w.service, item.key).Some?)
    {
      if faults.readExisting { return Failed("read_existing_failed"); }
      var before := if item.key in files then Some(files[item.key]) else None;
      if before.Some? && !faults.parseExisting && before.value.Parsed? && IdentityMismatch(before.value.auth, item.auth) {
        return Failed("identity_mismatch");
      }
      if faults.lookup { return Failed("lookup_failed"); }
      var existing := FindAccount(db, w.service, item.key);
      if faults.write { return Failed("write_failed"); }
      outcome := StoreItem(w, item, before, existing, faults);
    }

    /** One round of the preview loop. */
    method PreviewNext(service: int, items: seq<Item>, i: nat, seen: set<string>, lookupFails: bool) returns (o: Outcome, seen': set<string>)
      requires i < |items| && SeenExactly(seen, items, i)
      ensures SeenExactly(seen', items, i + 1)
      ensures o == Preview(service, db, items, i) || (lookupFails && o == Failed("lookup_failed"))
    {
      SeenStep(seen, items, i);
      seen' := SeenAfter(seen, items[i]);
      if items[i].Rejected? {
        o := Failed(items[i].code);
      } else if items[i].key in seen {
        o := Skipped;
      } else if lookupFails {
        o := Failed("lookup_failed");
      } else {
        o := if FindAccount(db, service, items[i].key).None? then Created else Updated;
      }
    }

    /** The preview: lookups only. */
    method PreviewBatch(service: int, items: seq<Item>, lookupFails: nat -> bool) returns (outcomes: seq<Outcome>, summary: Summary)
      ensures |outcomes| == |items| && summary == Count(outcomes)
      ensures forall i :: 0 <= i < |items| ==> outcomes[i] == Preview(service, db, items, i) || (lookupFails(i) && outcomes[i] == Failed("lookup_failed"))
    {
      outcomes, summary := [], Summary(0, 0, 0, 0);
      var seen: set<string> := {};
      for i := 0 to |items|
        invariant |outcomes| == i && summary == Count(outcomes) && SeenExactly(seen, items, i)
        invariant forall k :: 0 <= k < i ==> outcomes[k] == Preview(service, db, items, k) || (lookupFails(k) && outcomes[k] == Failed("lookup_failed"))
      {
        var o, next := PreviewNext(service, items, i, seen, lookupFails(i));
        CountStep(outcomes, o);
        seen, outcomes, summary := next, outcomes + [o], Add(summary, o);
      }
    }

    /** One round of the import loop. */
    method ImportNext(w: Where, items: seq<Item>, i: nat, seen: set<string>, faults: Faults) returns (o: Outcome, seen': set<string>)
      requires i < |items| && SeenExactly(seen, items, i)
      modifies this
      ensures SeenExactly(seen', items, i + 1) && seen' == SeenAfter(seen, items[i])
      ensures Treated(items, i, o)
      ensures Tidy(faults) ==> (files, db) == Effect(w, old(files), old(db), items[i], o)
      ensures Harmless(faults) ==> o == Forecast(w, old(files), old(db), items, i)
    {
      SeenStep(seen, items, i);
      seen' := SeenAfter(seen, items[i]);
      if items[i].Rejected? {
        o := Failed(items[i].code);
      } else if items[i].key in seen {
        o := Skipped;
      } else {
        o := ImportSingle(w, items[i], faults);
      }
    }

    /** The import. */
    method ImportBatch(w: Where, items: seq<Item>, faults: nat -> Faults) returns (outcomes: seq<Outcome>, summary: Summary)
      modifies this
      ensures |outcomes| == |items| && summary == Count(outcomes)
      ensures AllTreated(items, outcomes)
      ensures Compensated(faults, |items|) ==> (files, db) == Replay(w, old(files), old(db), items, outcomes)
      ensures Faultless(faults, |items|) ==> AllForecast(w, old(files), old(db), items, outcomes)
    {
      outcomes, summary := [], Summary(0, 0, 0, 0);
      var seen: set<string> := {};
      for i := 0 to |items|
        invariant |outcomes| == i && summary == Count(outcomes) && SeenExactly(seen, items, i)
        invariant AllTreated(items, outcomes)
        invariant Compensated(faults, i) ==> (files, db) == Replay(w, old(files), old(db), items, outcomes)
        invariant Faultless(faults, i) ==> AllForecast(w, old(files), old(db), items, outcomes)
        invariant Faultless(faults, i) ==> Beyond(w.service, old(files), old(db), files, db, seen)
      {
        ghost var files1, db1 := files, db;
        var o, next := ImportNext(w, items, i, seen, faults(i));
        if Faultless(faults, i + 1) {
          assert Harmless(faults(i));
          ForecastStays(w, old(files), old(db), files1, db1, items, i, seen);
          BeyondEffect(w, old(files), old(db), files1, db1, items[i], o, seen);
        }
        Append(w, old(files), old(db), items, outcomes, o);
        CountStep(outcomes, o);
        ReplayStep(w, old(files), old(db), items, outcomes, o);
        seen, outcomes, summary := next, outcomes + [o], Add(summary, o);
      }
    }
  }

  function SeenAfter(seen: set<string>, item: Item): set<string> { if item.Item? then seen + {item.key} else seen }

  /** Files and rows after an item with that outcome, when compensation works. */
  function Effect(w: Where, files: map<string, File>, db: Db, item: Item, o: Outcome): (map<string, File>, Db) {
    if item.Item? && Succeeded(o) then (Saved(files, item), Imported(w, db, item)) else (files, db)
  }

  lemma ForecastStays(w: Where, files0: map<string, File>, db0: Db, files: map<string, File>, db: Db, items: seq<Item>, i: nat, seen: set<string>)
    requires i < |items| && SeenExactly(seen, items, i) && Beyond(w.service, files0, db0, files, db, seen)
    ensures Forecast(w, files, db, items, i) == Forecast(w, files0, db0, items, i)
  {
    SeenStep(seen, items, i);
    if items[i].Item? && !Repeated(items, i) { PristineVerdict(w, files0, db0, files, db, items[i]); }
  }

  lemma BeyondEffect(w: Where, files0: map<string, File>, db0: Db, files: map<string, File>, db: Db, item: Item, o: Outcome, seen: set<string>)
    requires Beyond(w.service, files0, db0, files, db, seen)
    ensures var after := Effect(w, files, db, item, o); Beyond(w.service, files0, db0, after.0, after.1, SeenAfter(seen, item))
  {
    if item.Item? { BeyondStays(w, files0, db0, files, db, item, seen); }
  }

  ghost predicate AllTreated(items: seq<Item>, outcomes: seq<Outcome>) {
    |outcomes| <= |items| && forall i :: 0 <= i < |outcomes| ==> Treated(items, i, outcomes[i])
  }

  ghost predicate AllForecast(w: Where, files: map<string, File>, db: Db, items: seq<Item>, outcomes: seq<Outcome>) {
    |outcomes| <= |items| && forall i :: 0 <= i < |outcomes| ==> outcomes[i] == Forecast(w, files, db, items, i)
  }

  lemma Append(w: Where, files: map<string, File>, db: Db, items: seq<Item>, outcomes: seq<Outcome>, o: Outcome)
    requires |outcomes| < |items| && AllTreated(items, outcomes) && Treated(items, |outcomes|, o)
    ensures AllTreated(items, outcomes + [o])
    ensures AllForecast(w, files, db, items, outcomes) && o == Forecast(w, files, db, items, |outcomes|) ==>
      AllForecast(w, files, db, items, outcomes + [o])
  {
  }

  ghost predicate Treated(items: seq<Item>, i: nat, o: Outcome)
    requires i < |items|
  {
    if items[i].Rejected? then o == Failed(items[i].code) else if Repeated(items, i) then o == Skipped else Succeeded(o) || o.Failed?
  }

  ghost predicate Compensated(faults: nat -> Faults, n: nat) {
    forall i: nat :: i < n ==> Tidy(faults(i))
  }

  ghost predicate Faultless(faults: nat -> Faults, n: nat) { forall i: nat :: i < n ==> Harmless(faults(i)) }

  // ----- Preview against import -----

  /** f differs from p only where f failed and p promised success. */
  ghost predicate OnlyWorse(f: seq<Outcome>, p: seq<Outcome>) {
    |f| == |p| && forall i :: 0 <= i < |f| ==> f[i] == p[i] || (f[i].Failed? && Succeeded(p[i]))
  }

  lemma AddCancels(x: Summary, y: Summary, o: Outcome)
    ensures Add(x, o) == Add(y, o) <==> x == y
  {
  }

  lemma {:induction false} WorseCounts(f: seq<Outcome>, p: seq<Outcome>)
    requires OnlyWorse(f, p)
    ensures Count(f).failed >= Count(p).failed
    ensures Count(f) == Count(p) <==> f == p
    decreases |f|
  {
    if f != [] {
      var n := |f| - 1;
      var f', p' := f[..n], p[..n];
      assert f == f' + [f[n]] && p == p' + [p[n]];
      WorseCounts(f', p');
      AddCancels(Count(f'), Count(p'), f[n]);
      assert f == p <==> f' == p' && f[n] == p[n];
    }
  }

  lemma ForecastOrClash(w: Where, files: map<string, File>, db: Db, items: seq<Item>, i: nat)
    requires i < |items|
    ensures Clashes(files, items, i) ==> Forecast(w, files, db, items, i).Failed? && Succeeded(Preview(w.service, db, items, i))
    ensures !Clashes(files, items, i) ==> Forecast(w, files, db, items, i) == Preview(w.service, db, items, i)
  {
  }

  /** A fault-free import counts what the preview counted if and only if no first item of a key clashes with the identity
      in the file already stored under that key, repeated keys included. */
  lemma {:induction false} PreviewIsImport(w: Where, files: map<string, File>, db: Db, items: seq<Item>, imported: seq<Outcome>, previewed: seq<Outcome>)
    requires |imported| == |previewed| == |items|
    requires AllForecast(w, files, db, items, imported)
    requires forall i :: 0 <= i < |items| ==> previewed[i] == Preview(w.service, db, items, i)
    ensures Count(imported) == Count(previewed) <==> forall i :: 0 <= i < |items| ==> !Clashes(files, items, i)
    ensures Count(imported).failed >= Count(previewed).failed
  {
    forall i | 0 <= i < |items|
      ensures imported[i] == previewed[i] || (imported[i].Failed? && Succeeded(previewed[i]))
      ensures imported[i] == previewed[i] <==> !Clashes(files, items, i)
    {
      ForecastOrClash(w, files, db, items, i);
    }
    WorseCounts(imported, previewed);
  }

  // ----- What a batch leaves behind -----

  /** Under a key no successful item carried, the file and the lookup are what they were. */
  lemma {:induction false} ReplayFrame(w: Where, files: map<string, File>, db: Db, items: seq<Item>, outcomes: seq<Outcome>, key: string)
    requires |outcomes| <= |items|
    requires forall i :: 0 <= i < |outcomes| && items[i].Item? && Succeeded(outcomes[i]) ==> items[i].key != key
    ensures var after := Replay(w, files, db, items, outcomes); Pristine(w.service, files, db, after.0, after.1, key)
    decreases |outcomes|
  {
    if outcomes != [] {
      var n := |outcomes| - 1;
      ReplayFrame(w, files, db, items, outcomes[..n], key);
      var sofar := Replay(w, files, db, items, outcomes[..n]);
      if items[n].Item? && Succeeded(outcomes[n]) { PristineStays(w, files, db, sofar.0, sofar.1, items[n], key); }
    }
  }

  /** Rows of accounts that no successful item named survive a batch unchanged. */
  lemma {:induction false} ReplayKeepsRows(w: Where, files: map<string, File>, db: Db, items: seq<Item>, outcomes: seq<Outcome>, id: int)
    requires |outcomes| <= |items| && id in db.accounts
    requires forall i :: 0 <= i < |outcomes| && items[i].Item? && Succeeded(outcomes[i]) ==> !Is(db.accounts[id], w.service, items[i].key)
    ensures var after := Replay(w, files, db, items, outcomes).1; id in after.accounts && after.accounts[id] == db.accounts[id]
    decreases |outcomes|
  {
    if outcomes != [] {
      var n := |outcomes| - 1;
      ReplayKeepsRows(w, files, db, items, outcomes[..n], id);
      var sofar := Replay(w, files, db, items, outcomes[..n]).1;
      if items[n].Item? && Succeeded(outcomes[n]) {
        UpsertFrame(sofar, w.service, w.pool, items[n].key, w.template(items[n].auth));
      }
    }
  }
}
