/** Importing an exported configuration: pools, tokens and settings in one transaction. */
module ConfigImport {
  import opened Basics
  import opened Collections
  import opened Tokens

  datatype PoolEntry = PoolEntry(title: string, priority: int, enabled: bool)
  datatype TokenEntry = TokenEntry(name: string, pooled: bool, poolTitle: string, enabled: bool)
  datatype Payload = Payload(pools: seq<PoolEntry>, tokens: seq<TokenEntry>, settings: map<string, string>)

  datatype Db = Db(pools: map<int, PoolRow>, tokens: map<int, Token>, settings: map<string, string>)
  datatype Counters = Counters(createdPools: nat, updatedPools: nat, createdTokens: nat, skippedTokens: nat, updatedSettings: nat)

  const DEFAULT_POLICY: string := "health_first"

  const ALLOWED_KEYS: set<string> := {
    "health_check_interval", "request_timeout", "max_retry_attempts", "gateway_max_body_mb",
    "gateway_memory_body_mb", "notification_expiring_days", "data_retention_days", "codex_quota_fetch_interval"
  }

  /** The UNIQUE constraint on pool labels. */
  ghost predicate UniqueTitles(pools: map<int, PoolRow>) {
    forall p, q :: p in pools && q in pools && pools[p].title == pools[q].title ==> p == q
  }

  function FindPool(pools: map<int, PoolRow>, title: string): (r: Option<int>)
    ensures r.Some? ==> r.value in pools && pools[r.value].title == title
    ensures r.None? ==> forall id :: id in pools ==> pools[id].title != title
  {
    var ids := set id | id in pools && pools[id].title == title;
    if ids == {} then
      assert forall id :: id in pools && pools[id].title == title ==> id in ids;
      None
    else Some(MinOf(ids))
  }

  // ----- Pools -----

  /** The last entry that names this label. */
  function LastEntry(entries: seq<PoolEntry>, title: string): (r: Option<PoolEntry>)
    ensures r.Some? ==> r.value in entries && r.value.title == title && title != ""
    ensures r.None? ==> forall e :: e in entries && e.title == title ==> title == ""
  {
    if entries == [] then None
    else
      var last := entries[|entries| - 1];
      if last.title == title && title != "" then Some(last) else LastEntry(entries[..|entries| - 1], title)
  }

  function Overlay(row: PoolRow, e: Option<PoolEntry>): PoolRow {
    if e.None? then row else row.(priority := e.value.priority, enabled := e.value.enabled)
  }

  ghost predicate KeptPool(before: map<int, PoolRow>, after: map<int, PoolRow>, entries: seq<PoolEntry>, id: int)
    requires id in before
  {
    && id in after && after[id].title == before[id].title && after[id].policy == before[id].policy
    && var e := LastEntry(entries, before[id].title);
    && after[id].priority == (if e.Some? then e.value.priority else before[id].priority)
    && after[id].enabled == (if e.Some? then e.value.enabled else before[id].enabled)
  }

  ghost predicate NewPool(row: PoolRow, entries: seq<PoolEntry>) {
    var e := LastEntry(entries, row.title);
    e.Some? && row == PoolRow(row.title, e.value.priority, e.value.enabled, "health_first")
  }

  /** Every pool carries the last entry for its label, new pools come from entries only, and labels stay unique. */
  ghost predicate PoolsImported(before: map<int, PoolRow>, after: map<int, PoolRow>, entries: seq<PoolEntry>) {
    && UniqueTitles(after)
    && (forall id :: id in before ==> KeptPool(before, after, entries, id))
    && (forall id :: id in after && id !in before ==> NewPool(after[id], entries))
    && (forall e :: e in entries && e.title != "" ==> FindPool(after, e.title).Some?)
  }

  ghost predicate PoolsAbsorbed(pools: map<int, PoolRow>, entries: seq<PoolEntry>) {
    && (forall id :: id in pools ==> pools[id] == Overlay(pools[id], LastEntry(entries, pools[id].title)))
    && (forall e :: e in entries && e.title != "" ==> FindPool(pools, e.title).Some?)
  }

  function Labelled(entries: seq<PoolEntry>): nat {
    if entries == [] then 0
    else Labelled(entries[..|entries| - 1]) + if entries[|entries| - 1].title == "" then 0 else 1
  }

  /** What one entry does to the pool table. */
  function ImportPool(pools: map<int, PoolRow>, e: PoolEntry): (r: map<int, PoolRow>) {
    if e.title == "" then pools
    else
      var existing := FindPool(pools, e.title);
      if existing.Some? then pools[existing.value := Overlay(pools[existing.value], Some(e))]
      else pools[NextId(pools) := PoolRow(e.title, e.priority, e.enabled, DEFAULT_POLICY)]
  }

  lemma ImportPoolKeepsTitles(pools: map<int, PoolRow>, e: PoolEntry)
    requires UniqueTitles(pools)
    ensures UniqueTitles(ImportPool(pools, e))
    ensures forall id :: id in pools ==> id in ImportPool(pools, e) && ImportPool(pools, e)[id].title == pools[id].title
  {
  }

  lemma ImportPoolFinds(pools: map<int, PoolRow>, e: PoolEntry, title: string)
    requires UniqueTitles(pools) && (FindPool(pools, title).Some? || (title == e.title && title != ""))
    ensures FindPool(ImportPool(pools, e), title).Some?
  {
    ImportPoolKeepsTitles(pools, e);
    var after := ImportPool(pools, e);
    if FindPool(pools, title).Some? {
      assert FindPool(pools, title).value in after;
    } else {
      assert NextId(pools) in after;
    }
  }

  lemma ImportPoolKept(before: map<int, PoolRow>, mid: map<int, PoolRow>, entries: seq<PoolEntry>, e: PoolEntry, id: int)
    requires UniqueTitles(mid) && id in before && KeptPool(before, mid, entries, id)
    ensures KeptPool(before, ImportPool(mid, e), entries + [e], id)
  {
    assert (entries + [e])[..|entries|] == entries;
  }

  lemma ImportPoolNew(mid: map<int, PoolRow>, entries: seq<PoolEntry>, e: PoolEntry, id: int)
    requires UniqueTitles(mid) && id in ImportPool(mid, e) && (id in mid ==> NewPool(mid[id], entries))
    ensures NewPool(ImportPool(mid, e)[id], entries + [e])
  {
    assert (entries + [e])[..|entries|] == entries;
  }

  lemma ImportPoolStep(before: map<int, PoolRow>, mid: map<int, PoolRow>, entries: seq<PoolEntry>, e: PoolEntry)
    requires PoolsImported(before, mid, entries)
    ensures PoolsImported(before, ImportPool(mid, e), entries + [e])
  {
    var after := ImportPool(mid, e);
    ImportPoolKeepsTitles(mid, e);
    forall id | id in before ensures KeptPool(before, after, entries + [e], id) {
      ImportPoolKept(before, mid, entries, e, id);
    }
    forall id | id in after && id !in before ensures NewPool(after[id], entries + [e]) {
      ImportPoolNew(mid, entries, e, id);
    }
    forall x | x in entries + [e] && x.title != "" ensures FindPool(after, x.title).Some? {
      ImportPoolFinds(mid, e, x.title);
    }
  }

  /** One round of the loop over the payload's pools. */
  method ImportOnePool(pools: map<int, PoolRow>, byLabel: map<string, int>, e: PoolEntry)
    returns (pools': map<int, PoolRow>, byLabel': map<string, int>, created: nat, updated: nat)
    requires Mapped(pools, byLabel)
    ensures pools' == ImportPool(pools, e) && Mapped(pools', byLabel')
    ensures |pools'| == |pools| + created && created + updated == if e.title == "" then 0 else 1
  {
    MappedStays(pools, byLabel, e);
    if e.title == "" { return pools, byLabel, 0, 0; }
    var existing := FindPool(pools, e.title);
    if existing.Some? {
      var row := Overlay(pools[existing.value], Some(e));
      UpdateOne(pools, existing.value, row);
      return pools[existing.value := row], byLabel[e.title := existing.value], 0, 1;
    }
    var id, row := NextId(pools), PoolRow(e.title, e.priority, e.enabled, DEFAULT_POLICY);
    InsertOne(pools, id, row);
    return pools[id := row], byLabel[e.title := id], 1, 0;
  }

  lemma PrefixStep(entries: seq<PoolEntry>, i: nat)
    requires i < |entries|
    ensures entries[..i + 1] == entries[..i] + [entries[i]]
    ensures Labelled(entries[..i + 1]) == Labelled(entries[..i]) + if entries[i].title == "" then 0 else 1
  {
    assert entries[..i + 1][..i] == entries[..i];
  }

  method ImportPools(before: map<int, PoolRow>, entries: seq<PoolEntry>)
    returns (pools: map<int, PoolRow>, byLabel: map<string, int>, created: nat, updated: nat)
    requires UniqueTitles(before)
    ensures PoolsImported(before, pools, entries) && Mapped(pools, byLabel)
    ensures |pools| == |before| + created && created + updated == Labelled(entries)
  {
    pools, byLabel, created, updated := before, map[], 0, 0;
    ghost var part: seq<PoolEntry> := [];
    for i := 0 to |entries|
      invariant part == entries[..i] && PoolsImported(before, pools, part) && Mapped(pools, byLabel)
      invariant |pools| == |before| + created && created + updated == Labelled(part)
    {
      PrefixStep(entries, i);
      ImportPoolStep(before, pools, part, entries[i]);
      var made, changed;
      pools, byLabel, made, changed := ImportOnePool(pools, byLabel, entries[i]);
      created, updated, part := created + made, updated + changed, part + [entries[i]];
    }
    assert part == entries;
  }

  /** The remembered ids are those of the pools with these labels. */
  ghost predicate Mapped(pools: map<int, PoolRow>, byLabel: map<string, int>) {
    forall t :: t in byLabel ==> byLabel[t] in pools && pools[byLabel[t]].title == t
  }

  lemma MappedStays(pools: map<int, PoolRow>, byLabel: map<string, int>, e: PoolEntry)
    requires Mapped(pools, byLabel)
    ensures Mapped(ImportPool(pools, e), byLabel)
  {
  }

  /** Importing absorbs the entries, and absorbed entries change nothing. */
  lemma ImportedIsAbsorbed(before: map<int, PoolRow>, after: map<int, PoolRow>, entries: seq<PoolEntry>)
    requires PoolsImported(before, after, entries)
    ensures PoolsAbsorbed(after, entries)
  {
    forall id | id in after ensures after[id] == Overlay(after[id], LastEntry(entries, after[id].title)) {
      if id in before { assert KeptPool(before, after, entries, id); } else { assert NewPool(after[id], entries); }
    }
  }

  lemma AbsorbedIsFixed(before: map<int, PoolRow>, after: map<int, PoolRow>, entries: seq<PoolEntry>)
    requires PoolsImported(before, after, entries) && PoolsAbsorbed(before, entries)
    ensures after == before
  {
    forall id | id in before ensures id in after && after[id] == before[id] { assert KeptPool(before, after, entries, id); }
    forall id | id in after ensures id in before {
      var e := LastEntry(entries, after[id].title);
      if e.Some? {
        var twin := FindPool(before, e.value.title).value;
        assert KeptPool(before, after, entries, twin);
        assert after[twin].title == after[id].title;
      }
    }
    assert after.Keys == before.Keys;
  }

  // ----- Tokens -----

  /** The pool an entry's token is for; entries without a name or a pool are passed over. */
  function Target(pools: map<int, PoolRow>, e: TokenEntry): Option<int> {
    if e.name == "" || !e.pooled || e.poolTitle == "" then None else FindPool(pools, e.poolTitle)
  }

  predicate EntryOk(pools: map<int, PoolRow>, e: TokenEntry) {
    e.name != "" && e.pooled ==> e.poolTitle != "" && FindPool(pools, e.poolTitle).Some?
  }

  /** The first entry for a pool. */
  function FirstFor(pools: map<int, PoolRow>, entries: seq<TokenEntry>, p: int): (r: Option<TokenEntry>)
    ensures r.Some? ==> r.value in entries && Target(pools, r.value) == Some(p)
    ensures r.None? ==> forall e :: e in entries ==> Target(pools, e) != Some(p)
  {
    if entries == [] then None
    else
      var earlier := FirstFor(pools, entries[..|entries| - 1], p);
      if earlier.Some? then earlier
      else if Target(pools, entries[|entries| - 1]) == Some(p) then Some(entries[|entries| - 1]) else None
  }

  function Named(entries: seq<TokenEntry>): nat {
    if entries == [] then 0 else Named(entries[..|entries| - 1]) + if entries[|entries| - 1].name == "" then 0 else 1
  }

  /** A new token belongs to a pool that had none, and carries the name of the first entry for it. */
  ghost predicate NewToken(pools: map<int, PoolRow>, before: map<int, Token>, entries: seq<TokenEntry>, t: Token) {
    && t.poolId.Some? && t.poolId.value in pools && TokensOf(before, t.poolId.value) == {}
    && var first := FirstFor(pools, entries, t.poolId.value); first.Some? && t.name == first.value.name
  }

  ghost predicate TokensImported(pools: map<int, PoolRow>, before: map<int, Token>, after: map<int, Token>, entries: seq<TokenEntry>) {
    && (forall id :: id in before ==> id in after && after[id] == before[id])
    && (forall id :: id in after && id !in before ==> NewToken(pools, before, entries, after[id]))
    && (forall p :: p in pools && FirstFor(pools, entries, p).Some? ==> TokensOf(after, p) != {})
  }

  ghost predicate TokenStep(pools: map<int, PoolRow>, tx: map<int, Token>, tokens: map<int, Token>, e: TokenEntry) {
    var p := Target(pools, e);
    if p.Some? && TokensOf(tx, p.value) == {} then
      var id := NextId(tx);
      && id in tokens && tokens == tx[id := tokens[id]]
      && tokens[id].poolId == p && tokens[id].name == e.name && tokens[id].enabled == e.enabled
    else tokens == tx
  }

  datatype Status = Done | BadEntry | NoValue

  /** One round of the loop over the payload's tokens. */
  method ImportOneToken(pools: map<int, PoolRow>, byLabel: map<string, int>, tx: map<int, Token>, e: TokenEntry, value: Option<string>)
    returns (status: Status, byLabel': map<string, int>, tokens: map<int, Token>, created: nat, skipped: nat)
    requires UniqueTitles(pools) && Mapped(pools, byLabel)
    ensures Mapped(pools, byLabel')
    ensures status.BadEntry? <==> !EntryOk(pools, e)
    ensures status.NoValue? ==> Target(pools, e).Some? && TokensOf(tx, Target(pools, e).value) == {}
    ensures status.Done? ==> TokenStep(pools, tx, tokens, e) && Issued(tx, tokens, value, created)
    ensures status.Done? ==> created + skipped == (if e.name == "" then 0 else 1) && |tokens| == |tx| + created
  {
    byLabel' := byLabel;
    if e.name == "" { return Done, byLabel, tx, 0, 0; }
    if !e.pooled { return Done, byLabel, tx, 0, 1; }
    if e.poolTitle == "" { return BadEntry, byLabel, tx, 0, 0; }
    if e.poolTitle !in byLabel {
      var existing := FindPool(pools, e.poolTitle);
      if existing.None? { return BadEntry, byLabel, tx, 0, 0; }
      byLabel' := byLabel[e.poolTitle := existing.value];
    }
    var p := byLabel'[e.poolTitle];
    if TokensOf(tx, p) != {} { return Done, byLabel', tx, 0, 1; }
    if value.None? || ValueTaken(tx, value.value) { return NoValue, byLabel', tx, 0, 0; }
    var token := Token(e.name, value.value, Some(p), e.enabled);
    InsertOne(tx, NextId(tx), token);
    assert NextId(tx) !in tx && tx[NextId(tx) := token][NextId(tx)] == token;
    return Done, byLabel', tx[NextId(tx) := token], 1, 0;
  }

  /** A token added for p changes the tokens of p only. */
  lemma AddedToken(tx: map<int, Token>, tokens: map<int, Token>, id: int, q: int)
    requires id !in tx && id in tokens && tokens == tx[id := tokens[id]]
    ensures TokensOf(tokens, q) == TokensOf(tx, q) + if tokens[id].poolId == Some(q) then {id} else {}
  {
  }

  lemma TokensStay(pools: map<int, PoolRow>, before: map<int, Token>, tx: map<int, Token>, entries: seq<TokenEntry>, p: int)
    requires TokensImported(pools, before, tx, entries)
    ensures TokensOf(before, p) <= TokensOf(tx, p)
  {
    forall id | id in TokensOf(before, p) ensures id in TokensOf(tx, p) { assert id in tx && tx[id] == before[id]; }
  }

  lemma TokenStepNew(pools: map<int, PoolRow>, before: map<int, Token>, tx: map<int, Token>, tokens: map<int, Token>,
                     entries: seq<TokenEntry>, e: TokenEntry, id: int)
    requires TokensImported(pools, before, tx, entries) && TokenStep(pools, tx, tokens, e) && id in tokens && id !in before
    ensures NewToken(pools, before, entries + [e], tokens[id])
  {
    assert (entries + [e])[..|entries|] == entries;
    if id in tx {
      assert NewToken(pools, before, entries, tx[id]);
    } else {
      var p := Target(pools, e).value;
      TokensStay(pools, before, tx, entries, p);
    }
  }

  lemma TokenStepCovers(pools: map<int, PoolRow>, before: map<int, Token>, tx: map<int, Token>, tokens: map<int, Token>,
                        entries: seq<TokenEntry>, e: TokenEntry, q: int)
    requires TokensImported(pools, before, tx, entries) && TokenStep(pools, tx, tokens, e)
    requires q in pools && FirstFor(pools, entries + [e], q).Some?
    ensures TokensOf(tokens, q) != {}
  {
    assert (entries + [e])[..|entries|] == entries;
    var p := Target(pools, e);
    if p.Some? && TokensOf(tx, p.value) == {} { AddedToken(tx, tokens, NextId(tx), q); }
  }

  lemma TokenStepKeeps(pools: map<int, PoolRow>, before: map<int, Token>, tx: map<int, Token>, tokens: map<int, Token>,
                       entries: seq<TokenEntry>, e: TokenEntry)
    requires TokensImported(pools, before, tx, entries) && TokenStep(pools, tx, tokens, e)
    ensures TokensImported(pools, before, tokens, entries + [e])
  {
    forall id | id in tokens && id !in before ensures NewToken(pools, before, entries + [e], tokens[id]) {
      TokenStepNew(pools, before, tx, tokens, entries, e, id);
    }
    forall q | q in pools && FirstFor(pools, entries + [e], q).Some? ensures TokensOf(tokens, q) != {} {
      TokenStepCovers(pools, before, tx, tokens, entries, e, q);
    }
  }

  /** Each created token takes one pool off the list of pools without a token. */
  lemma TokenStepCounts(pools: map<int, PoolRow>, tx: map<int, Token>, tokens: map<int, Token>, e: TokenEntry)
    requires TokenStep(pools, tx, tokens, e)
    ensures |tokens| - |tx| == |PoolsWithout(tx, pools.Keys)| - |PoolsWithout(tokens, pools.Keys)|
  {
    var p := Target(pools, e);
    if p.Some? && TokensOf(tx, p.value) == {} {
      var id := NextId(tx);
      InsertOne(tx, id, tokens[id]);
      forall q ensures q in PoolsWithout(tokens, pools.Keys) <==> q in PoolsWithout(tx, pools.Keys) && q != p.value {
        AddedToken(tx, tokens, id, q);
      }
      assert PoolsWithout(tokens, pools.Keys) == PoolsWithout(tx, pools.Keys) - {p.value};
    }
  }

  method ImportTokens(pools: map<int, PoolRow>, known: map<string, int>, before: map<int, Token>, entries: seq<TokenEntry>, gen: nat -> Option<string>)
    returns (status: Status, tokens: map<int, Token>, created: nat, skipped: nat)
    requires UniqueTitles(pools) && Mapped(pools, known)
    ensures status.BadEntry? ==> exists e :: e in entries && !EntryOk(pools, e)
    ensures status.NoValue? ==> PoolsWithout(before, pools.Keys) != {}
    ensures status.Done? ==> TokensImported(pools, before, tokens, entries) && forall e :: e in entries ==> EntryOk(pools, e)
    ensures status.Done? ==> |tokens| == |before| + created && created + skipped == Named(entries)
    ensures status.Done? ==> created == |PoolsWithout(before, pools.Keys)| - |PoolsWithout(tokens, pools.Keys)|
    ensures status.Done? ==> Fair(before, tokens, gen, created)
  {
    var byLabel := known;
    tokens, created, skipped := before, 0, 0;
    for i := 0 to |entries|
      invariant Mapped(pools, byLabel) && TokensImported(pools, before, tokens, entries[..i])
      invariant forall e :: e in entries[..i] ==> EntryOk(pools, e)
      invariant Fair(before, tokens, gen, created)
      invariant |tokens| == |before| + created && created + skipped == Named(entries[..i])
      invariant created == |PoolsWithout(before, pools.Keys)| - |PoolsWithout(tokens, pools.Keys)|
    {
      var e := entries[i];
      assert entries[..i + 1] == entries[..i] + [e] && entries[..i + 1][..i] == entries[..i];
      var next, made, dropped;
      status, byLabel, next, made, dropped := ImportOneToken(pools, byLabel, tokens, e, gen(created));
      if !status.Done? {
        if status.NoValue? { StillWithout(pools, before, tokens, entries[..i], Target(pools, e).value); }
        return;
      }
      TokenStepKeeps(pools, before, tokens, next, entries[..i], e);
      TokenStepCounts(pools, tokens, next, e);
      StaysFair(before, tokens, next, gen, created, made);
      tokens, created, skipped := next, created + made, skipped + dropped;
    }
    assert entries[..|entries|] == entries;
    status := Done;
  }

  lemma StillWithout(pools: map<int, PoolRow>, before: map<int, Token>, tx: map<int, Token>, entries: seq<TokenEntry>, p: int)
    requires TokensImported(pools, before, tx, entries) && p in pools && TokensOf(tx, p) == {}
    ensures p in PoolsWithout(before, pools.Keys)
  {
    TokensStay(pools, before, tx, entries, p);
  }

  /** The tokens of a pool that had some, or that no entry is for, are the ones it had. */
  lemma SameTokens(pools: map<int, PoolRow>, before: map<int, Token>, mid: map<int, Token>, entries: seq<TokenEntry>, p: int)
    requires TokensImported(pools, before, mid, entries)
    requires TokensOf(before, p) != {} || FirstFor(pools, entries, p).None?
    ensures TokensOf(mid, p) == TokensOf(before, p)
  {
    TokensStay(pools, before, mid, entries, p);
    forall id | id in TokensOf(mid, p) ensures id in TokensOf(before, p) {
      assert id in mid;
    }
  }

  /** The pools that had no token and get one from an entry. */
  ghost function ServedByEntries(pools: map<int, PoolRow>, before: map<int, Token>, entries: seq<TokenEntry>): set<int> {
    set p | p in PoolsWithout(before, pools.Keys) && FirstFor(pools, entries, p).Some?
  }

  lemma ServedIsGone(pools: map<int, PoolRow>, before: map<int, Token>, mid: map<int, Token>, entries: seq<TokenEntry>)
    requires TokensImported(pools, before, mid, entries)
    ensures PoolsWithout(mid, pools.Keys) == PoolsWithout(before, pools.Keys) - ServedByEntries(pools, before, entries)
  {
    forall p | p in pools ensures TokensOf(mid, p) == {} <==> TokensOf(before, p) == {} && FirstFor(pools, entries, p).None? {
      WithoutAfter(pools, before, mid, entries, p);
    }
  }

  lemma ServedCount(pools: map<int, PoolRow>, before: map<int, Token>, mid: map<int, Token>, entries: seq<TokenEntry>)
    requires TokensImported(pools, before, mid, entries)
    ensures |PoolsWithout(before, pools.Keys)| - |PoolsWithout(mid, pools.Keys)| == |ServedByEntries(pools, before, entries)|
  {
    ServedIsGone(pools, before, mid, entries);
    assert ServedByEntries(pools, before, entries) <= PoolsWithout(before, pools.Keys);
  }

  lemma WithoutAfter(pools: map<int, PoolRow>, before: map<int, Token>, mid: map<int, Token>, entries: seq<TokenEntry>, p: int)
    requires TokensImported(pools, before, mid, entries)
    ensures p in pools ==> (TokensOf(mid, p) == {} <==> TokensOf(before, p) == {} && FirstFor(pools, entries, p).None?)
  {
    if TokensOf(before, p) != {} || FirstFor(pools, entries, p).None? { SameTokens(pools, before, mid, entries, p); }
  }

  // ----- Settings -----

  function Accepted(settings: map<string, string>): map<string, string> {
    map k | k in settings && k != "admin_token" && k in ALLOWED_KEYS :: settings[k]
  }

  /** The eight keys an import may set, each with its imported value. */
  lemma AcceptedMeans(imported: map<string, string>, key: string)
    ensures key in Accepted(imported) <==> key in imported && key in {
      "health_check_interval", "request_timeout", "max_retry_attempts", "gateway_max_body_mb", "gateway_memory_body_mb",
      "notification_expiring_days", "data_retention_days", "codex_quota_fetch_interval"}
    ensures key in Accepted(imported) ==> Accepted(imported)[key] == imported[key]
  {
  }

  ghost function Handled(imported: map<string, string>, rest: set<string>): map<string, string> {
    map k | k in Accepted(imported) && k !in rest :: imported[k]
  }

  lemma HandledGrows(imported: map<string, string>, rest: set<string>, key: string)
    requires key in rest && key in imported
    ensures Handled(imported, rest - {key})
      == if key in Accepted(imported) then Handled(imported, rest)[key := imported[key]] else Handled(imported, rest)
  {
  }

  lemma HandledStep(before: map<string, string>, imported: map<string, string>, rest: set<string>, key: string)
    requires key in rest && key in imported
    ensures before + Handled(imported, rest - {key})
      == if key in Accepted(imported) then (before + Handled(imported, rest))[key := imported[key]] else before + Handled(imported, rest)
    ensures |Handled(imported, rest - {key})| == |Handled(imported, rest)| + if key in Accepted(imported) then 1 else 0
  {
    HandledGrows(imported, rest, key);
    var done := Handled(imported, rest);
    assert key !in done;
    if key in Accepted(imported) {
      assert before + done[key := imported[key]] == (before + done)[key := imported[key]];
      assert done[key := imported[key]].Keys == done.Keys + {key};
    }
  }

  method ImportSettings(before: map<string, string>, imported: map<string, string>) returns (settings: map<string, string>, updated: nat)
    ensures settings == before + Accepted(imported) && updated == |Accepted(imported)|
  {
    settings, updated := before, 0;
    var rest := imported.Keys;
    assert Handled(imported, rest) == map[];
    while rest != {}
      invariant rest <= imported.Keys
      invariant settings == before + Handled(imported, rest) && updated == |Handled(imported, rest)|
      decreases |rest|
    {
      ghost var some := SomeElement(rest);
      var key :| key in rest;
      HandledStep(before, imported, rest, key);
      if key != "admin_token" && key in ALLOWED_KEYS {
        settings, updated := settings[key := imported[key]], updated + 1;
      }
      rest := rest - {key};
    }
    assert Handled(imported, rest) == Accepted(imported);
  }

  // ----- The transaction -----

  /** A label that exists once the payload's pools are in. */
  predicate Known(db: Db, payload: Payload, title: string) {
    FindPool(db.pools, title).Some? || exists e :: e in payload.pools && e.title == title
  }

  /** A token entry the import accepts: whoever names a pool names an existing or imported one. */
  predicate Acceptable(db: Db, payload: Payload, e: TokenEntry) {
    e.name != "" && e.pooled ==> e.poolTitle != "" && Known(db, payload, e.poolTitle)
  }

  lemma KnownIsFound(db: Db, payload: Payload, pools: map<int, PoolRow>, title: string)
    requires PoolsImported(db.pools, pools, payload.pools) && title != ""
    ensures FindPool(pools, title).Some? <==> Known(db, payload, title)
  {
    if FindPool(db.pools, title).Some? {
      assert KeptPool(db.pools, pools, payload.pools, FindPool(db.pools, title).value);
    }
    if FindPool(pools, title).Some? {
      var id := FindPool(pools, title).value;
      if id in db.pools { assert KeptPool(db.pools, pools, payload.pools, id); } else { assert NewPool(pools[id], payload.pools); }
    }
  }

  lemma AcceptableIsOk(db: Db, payload: Payload, pools: map<int, PoolRow>, e: TokenEntry)
    requires PoolsImported(db.pools, pools, payload.pools)
    ensures EntryOk(pools, e) <==> Acceptable(db, payload, e)
  {
    if e.poolTitle != "" { KnownIsFound(db, payload, pools, e.poolTitle); }
  }

  /** The one token pool p ends up with. */
  ghost predicate TokenOutcome(pools: map<int, PoolRow>, before: map<int, Token>, after: map<int, Token>, entries: seq<TokenEntry>, p: int)
    requires p in pools
  {
    var first := FirstFor(pools, entries, p);
    exists keep :: keep in after && TokensOf(after, p) == {keep} && after[keep].enabled
      && (if TokensOf(before, p) != {} then keep == MinOf(TokensOf(before, p)) && after[keep] == before[keep].(enabled := true)
          else after[keep].name == if first.Some? then first.value.name else DefaultName(pools[p].title))
  }

  /** What a successful import does. */
  ghost predicate Imported(before: Db, payload: Payload, after: Db) {
    && PoolsImported(before.pools, after.pools, payload.pools)
    && (forall e :: e in payload.tokens ==> EntryOk(after.pools, e))
    && Untouched(before.tokens, after.tokens, after.pools.Keys)
    && (forall p :: p in after.pools ==> TokenOutcome(after.pools, before.tokens, after.tokens, payload.tokens, p))
    && after.settings == before.settings + Accepted(payload.settings)
  }

  lemma OutcomeOf(pools: map<int, PoolRow>, before: map<int, Token>, mid: map<int, Token>, after: map<int, Token>, entries: seq<TokenEntry>, p: int)
    requires TokensImported(pools, before, mid, entries) && p in pools && HasSettled(pools[p].title, mid, after, p)
    ensures TokenOutcome(pools, before, after, entries, p)
  {
    var keep :| Settled(pools[p].title, mid, after, p, keep);
    if TokensOf(before, p) != {} || FirstFor(pools, entries, p).None? {
      SameTokens(pools, before, mid, entries, p);
    } else {
      assert keep in TokensOf(mid, p) && keep !in TokensOf(before, p);
      assert NewToken(pools, before, entries, mid[keep]);
    }
  }

  lemma UntouchedByBoth(pools: map<int, PoolRow>, before: map<int, Token>, mid: map<int, Token>, after: map<int, Token>, entries: seq<TokenEntry>)
    requires TokensImported(pools, before, mid, entries) && Untouched(mid, after, pools.Keys)
    ensures Untouched(before, after, pools.Keys)
  {
    forall id | id in after && after[id].poolId.value !in pools ensures id in before && after[id] == before[id] {
      assert id in before || NewToken(pools, before, entries, mid[id]);
    }
  }

  /** What the two token passes do together. */
  lemma TokensComeOut(pools: map<int, PoolRow>, before: map<int, Token>, mid: map<int, Token>, after: map<int, Token>, entries: seq<TokenEntry>)
    requires TokensImported(pools, before, mid, entries) && Reconciled(pools, mid, after)
    ensures Untouched(before, after, pools.Keys)
    ensures forall p :: p in pools ==> TokenOutcome(pools, before, after, entries, p)
  {
    forall p | p in pools ensures TokenOutcome(pools, before, after, entries, p) { OutcomeOf(pools, before, mid, after, entries, p); }
    UntouchedByBoth(pools, before, mid, after, entries);
  }

  /** Tokens before, plus created, less skipped, are the tokens after: an entry that served no pool counts as skipped. */
  ghost predicate Conserves(before: Db, payload: Payload, after: Db, counters: Counters) {
    var idle := Named(payload.tokens) - |ServedByEntries(after.pools, before.tokens, payload.tokens)|;
    |after.tokens| == |before.tokens| + counters.createdTokens - (counters.skippedTokens - idle)
  }

  /** What each counter counts. */
  ghost predicate Reports(before: Db, payload: Payload, after: Db, counters: Counters) {
    && |after.pools| == |before.pools| + counters.createdPools
    && counters.createdPools + counters.updatedPools == Labelled(payload.pools)
    && counters.createdTokens == |PoolsWithout(before.tokens, after.pools.Keys)|
    && Conserves(before, payload, after, counters)
    && counters.updatedSettings == |Accepted(payload.settings)|
  }

  method RunImport(before: Db, payload: Payload, gen: nat -> Option<string>) returns (status: Status, after: Db, counters: Counters)
    requires UniqueTitles(before.pools)
    ensures status.BadEntry? ==> exists e :: e in payload.tokens && !Acceptable(before, payload, e)
    ensures status.Done? ==> Imported(before, payload, after) && forall e :: e in payload.tokens ==> Acceptable(before, payload, e)
    ensures status.Done? ==> Reports(before, payload, after, counters) && Fair(before.tokens, after.tokens, gen, counters.createdTokens)
    ensures Absorbed(before, payload) ==> status.Done?
  {
    after := before;
    counters := Counters(0, 0, 0, 0, 0);
    var pools, byLabel, createdPools, updatedPools := ImportPools(before.pools, payload.pools);
    forall e ensures EntryOk(pools, e) <==> Acceptable(before, payload, e) { AcceptableIsOk(before, payload, pools, e); }
    if Absorbed(before, payload) { AbsorbedNeedsNothing(before, payload, pools); }
    var mid, createdTokens, skippedTokens;
    status, mid, createdTokens, skippedTokens := ImportTokens(pools, byLabel, before.tokens, payload.tokens, gen);
    if !status.Done? { return; }
    var ok, tokens, created, skipped := ReconcilePoolTokens(pools, mid, Later(gen, createdTokens));
    if !ok {
      return NoValue, before, counters;
    }
    var settings, updatedSettings := ImportSettings(before.settings, payload.settings);
    TokensComeOut(pools, before.tokens, mid, tokens, payload.tokens);
    ServedCount(pools, before.tokens, mid, payload.tokens);
    FairTwice(before.tokens, mid, tokens, gen, createdTokens, created);
    after := Db(pools, tokens, settings);
    counters := Counters(createdPools, updatedPools, createdTokens + created, skippedTokens + skipped, updatedSettings);
  }

  // ----- Importing twice -----

  /** Everything the payload asks for is already there. */
  ghost predicate Absorbed(db: Db, payload: Payload) {
    && PoolsAbsorbed(db.pools, payload.pools)
    && (forall e :: e in payload.tokens ==> EntryOk(db.pools, e))
    && Clean(db.pools, db.tokens)
    && db.settings == db.settings + Accepted(payload.settings)
  }

  lemma AbsorbedNeedsNothing(before: Db, payload: Payload, pools: map<int, PoolRow>)
    requires Absorbed(before, payload) && PoolsImported(before.pools, pools, payload.pools)
    ensures pools == before.pools && PoolsWithout(before.tokens, pools.Keys) == {}
    ensures forall e :: e in payload.tokens ==> EntryOk(pools, e)
  {
    AbsorbedIsFixed(before.pools, pools, payload.pools);
    CleanNeedsNoToken(before.pools, before.tokens);
  }

  /** Every successful import ends clean, with the payload absorbed. */
  lemma ImportAbsorbs(before: Db, payload: Payload, after: Db)
    requires Imported(before, payload, after)
    ensures Absorbed(after, payload) && UniqueTitles(after.pools) && Clean(after.pools, after.tokens)
  {
    ImportedIsAbsorbed(before.pools, after.pools, payload.pools);
    forall p | p in after.pools ensures exists keep :: TokensOf(after.tokens, p) == {keep} && after.tokens[keep].enabled {
      assert TokenOutcome(after.pools, before.tokens, after.tokens, payload.tokens, p);
    }
  }

  lemma OutcomeIsSettled(pools: map<int, PoolRow>, before: map<int, Token>, after: map<int, Token>, entries: seq<TokenEntry>, p: int)
    requires p in pools && TokensOf(before, p) != {} && TokenOutcome(pools, before, after, entries, p)
    ensures HasSettled(pools[p].title, before, after, p)
  {
    var keep :| keep in after && TokensOf(after, p) == {keep} && after[keep].enabled
      && keep == MinOf(TokensOf(before, p)) && after[keep] == before[keep].(enabled := true);
    assert Settled(pools[p].title, before, after, p, keep);
  }

  /** Importing what is already there changes nothing. */
  lemma AbsorbedStays(once: Db, payload: Payload, twice: Db)
    requires Absorbed(once, payload) && Imported(once, payload, twice)
    ensures twice == once && |PoolsWithout(once.tokens, twice.pools.Keys)| == 0
  {
    AbsorbedNeedsNothing(once, payload, twice.pools);
    forall p | p in twice.pools ensures HasSettled(twice.pools[p].title, once.tokens, twice.tokens, p) {
      assert p !in PoolsWithout(once.tokens, twice.pools.Keys);
      OutcomeIsSettled(twice.pools, once.tokens, twice.tokens, payload.tokens, p);
    }
    CleanIsFixed(once.pools, once.tokens, twice.tokens);
  }

  /** Importing the same payload again changes nothing. */
  lemma ReimportChangesNothing(db: Db, payload: Payload, once: Db, twice: Db)
    requires Imported(db, payload, once) && Imported(once, payload, twice)
    ensures twice == once
  {
    ImportAbsorbs(db, payload, once);
    AbsorbedStays(once, payload, twice);
  }

  // ----- The counters do not depend on the ids and values drawn -----

  /** The foreign key of access_tokens. */
  ghost predicate Linked(db: Db) {
    forall id :: id in db.tokens && db.tokens[id].poolId.Some? ==> db.tokens[id].poolId.value in db.pools
  }

  ghost function TitlesOf(pools: map<int, PoolRow>, ids: set<int>): set<string>
    requires ids <= pools.Keys
  {
    set p | p in ids :: pools[p].title
  }

  /** Labels are unique, so pools can be counted by label. */
  lemma {:induction false} CountByTitle(pools: map<int, PoolRow>, ids: set<int>)
    requires UniqueTitles(pools) && ids <= pools.Keys
    ensures |TitlesOf(pools, ids)| == |ids|
    decreases |ids|
  {
    if ids != {} {
      var p := SomeElement(ids);
      CountByTitle(pools, ids - {p});
      var rest := TitlesOf(pools, ids - {p});
      assert pools[p].title !in rest;
      forall t ensures t in TitlesOf(pools, ids) <==> t in rest || t == pools[p].title {
        if t in TitlesOf(pools, ids) {
          var q :| q in ids && pools[q].title == t;
          assert q == p || q in ids - {p};
        }
      }
      assert TitlesOf(pools, ids) == rest + {pools[p].title};
    }
  }

  lemma SameSize(x: map<int, PoolRow>, some: set<int>, y: map<int, PoolRow>, others: set<int>)
    requires UniqueTitles(x) && UniqueTitles(y) && some <= x.Keys && others <= y.Keys
    requires TitlesOf(x, some) <= TitlesOf(y, others) && TitlesOf(y, others) <= TitlesOf(x, some)
    ensures |some| == |others|
  {
    assert TitlesOf(x, some) == TitlesOf(y, others);
    CountByTitle(x, some);
    CountByTitle(y, others);
  }

  /** Two imports of one payload: pools of one label are the same old pool, or both new. */
  lemma Twins(b: Db, payload: Payload, x: map<int, PoolRow>, y: map<int, PoolRow>, p: int, q: int)
    requires PoolsImported(b.pools, x, payload.pools) && PoolsImported(b.pools, y, payload.pools)
    requires p in x && q in y && x[p].title == y[q].title
    ensures (p in b.pools || q in b.pools) ==> p == q
  {
    if p in b.pools { assert KeptPool(b.pools, x, payload.pools, p) && KeptPool(b.pools, y, payload.pools, p); }
    if q in b.pools { assert KeptPool(b.pools, x, payload.pools, q) && KeptPool(b.pools, y, payload.pools, q); }
  }

  lemma TwinExists(b: Db, payload: Payload, x: map<int, PoolRow>, y: map<int, PoolRow>, p: int) returns (q: int)
    requires PoolsImported(b.pools, x, payload.pools) && PoolsImported(b.pools, y, payload.pools) && p in x
    ensures q in y && x[p].title == y[q].title && ((p in b.pools || q in b.pools) ==> p == q)
  {
    if p in b.pools {
      assert KeptPool(b.pools, x, payload.pools, p) && KeptPool(b.pools, y, payload.pools, p);
      q := p;
    } else {
      assert NewPool(x[p], payload.pools);
      var e := LastEntry(payload.pools, x[p].title).value;
      q := FindPool(y, e.title).value;
    }
    Twins(b, payload, x, y, p, q);
  }

  /** Twins are equally without tokens, and equally served by entries. */
  lemma TwinsAlike(b: Db, payload: Payload, x: map<int, PoolRow>, y: map<int, PoolRow>, p: int, q: int)
    requires Linked(b) && UniqueTitles(x) && UniqueTitles(y) && p in x && q in y && x[p].title == y[q].title
    requires (p in b.pools || q in b.pools) ==> p == q
    ensures TokensOf(b.tokens, p) == {} <==> TokensOf(b.tokens, q) == {}
    ensures FirstFor(x, payload.tokens, p).Some? ==> FirstFor(y, payload.tokens, q).Some?
  {
    forall id ensures p !in b.pools ==> id !in TokensOf(b.tokens, p) { }
    forall id ensures q !in b.pools ==> id !in TokensOf(b.tokens, q) { }
    var first := FirstFor(x, payload.tokens, p);
    if first.Some? { assert Target(y, first.value) == Some(q); }
  }

  lemma TitlesCarryOver(b: Db, payload: Payload, x: map<int, PoolRow>, y: map<int, PoolRow>)
    requires Linked(b) && PoolsImported(b.pools, x, payload.pools) && PoolsImported(b.pools, y, payload.pools)
    ensures TitlesOf(x, x.Keys) <= TitlesOf(y, y.Keys)
    ensures TitlesOf(x, PoolsWithout(b.tokens, x.Keys)) <= TitlesOf(y, PoolsWithout(b.tokens, y.Keys))
    ensures TitlesOf(x, ServedByEntries(x, b.tokens, payload.tokens)) <= TitlesOf(y, ServedByEntries(y, b.tokens, payload.tokens))
  {
    forall p | p in x
      ensures x[p].title in TitlesOf(y, y.Keys)
      ensures p in PoolsWithout(b.tokens, x.Keys) ==> x[p].title in TitlesOf(y, PoolsWithout(b.tokens, y.Keys))
      ensures p in ServedByEntries(x, b.tokens, payload.tokens) ==> x[p].title in TitlesOf(y, ServedByEntries(y, b.tokens, payload.tokens))
    {
      var q := TwinExists(b, payload, x, y, p);
      TwinsAlike(b, payload, x, y, p, q);
    }
  }

  lemma SameCounts(b: Db, payload: Payload, x: map<int, PoolRow>, y: map<int, PoolRow>)
    requires Linked(b) && PoolsImported(b.pools, x, payload.pools) && PoolsImported(b.pools, y, payload.pools)
    ensures |x| == |y| && |PoolsWithout(b.tokens, x.Keys)| == |PoolsWithout(b.tokens, y.Keys)|
    ensures |ServedByEntries(x, b.tokens, payload.tokens)| == |ServedByEntries(y, b.tokens, payload.tokens)|
  {
    TitlesCarryOver(b, payload, x, y);
    TitlesCarryOver(b, payload, y, x);
    SameSize(x, x.Keys, y, y.Keys);
    SameSize(x, PoolsWithout(b.tokens, x.Keys), y, PoolsWithout(b.tokens, y.Keys));
    SameSize(x, ServedByEntries(x, b.tokens, payload.tokens), y, ServedByEntries(y, b.tokens, payload.tokens));
    assert |x| == |x.Keys| && |y| == |y.Keys|;
  }

  /** An import keeps the foreign key. */
  lemma ImportKeepsLinks(before: Db, payload: Payload, after: Db)
    requires Linked(before) && Imported(before, payload, after)
    ensures Linked(after)
  {
    forall id | id in after.tokens && after.tokens[id].poolId.Some? ensures after.tokens[id].poolId.value in after.pools {
      var p := after.tokens[id].poolId.value;
      if p in before.pools { assert KeptPool(before.pools, after.pools, payload.pools, p); }
    }
  }

  /** A clean table with its foreign key has one token per pool. */
  lemma {:induction false} OneTokenEach(pools: map<int, PoolRow>, tokens: map<int, Token>)
    requires Linked(Db(pools, tokens, map[])) && Clean(pools, tokens)
    ensures |tokens| == |pools|
  {
    var owners := set id | id in tokens :: tokens[id].poolId.value;
    assert owners == pools.Keys by {
      forall p | p in pools ensures p in owners {
        var keep :| TokensOf(tokens, p) == {keep} && tokens[keep].enabled;
        assert keep in TokensOf(tokens, p);
      }
    }
    forall i, j | i in tokens && j in tokens && tokens[i].poolId == tokens[j].poolId ensures i == j {
      var keep :| TokensOf(tokens, tokens[i].poolId.value) == {keep} && tokens[keep].enabled;
      assert i in TokensOf(tokens, tokens[i].poolId.value) && j in TokensOf(tokens, tokens[i].poolId.value);
    }
    CountByOwner(tokens, tokens.Keys);
  }

  lemma {:induction false} CountByOwner(tokens: map<int, Token>, ids: set<int>)
    requires ids <= tokens.Keys && forall i :: i in tokens ==> tokens[i].poolId.Some?
    requires forall i, j :: i in tokens && j in tokens && tokens[i].poolId == tokens[j].poolId ==> i == j
    ensures |set id | id in ids :: tokens[id].poolId.value| == |ids|
    decreases |ids|
  {
    if ids != {} {
      var i := SomeElement(ids);
      CountByOwner(tokens, ids - {i});
      var rest := set id | id in ids - {i} :: tokens[id].poolId.value;
      assert tokens[i].poolId.value !in rest;
      assert (set id | id in ids :: tokens[id].poolId.value) == rest + {tokens[i].poolId.value};
    }
  }

  /** After an import there are as many tokens as pools. */
  lemma TokensAfter(before: Db, payload: Payload, after: Db)
    requires Linked(before) && Imported(before, payload, after)
    ensures |after.tokens| == |after.pools|
  {
    ImportAbsorbs(before, payload, after);
    ImportKeepsLinks(before, payload, after);
    OneTokenEach(after.pools, after.tokens);
  }

  /** The counters, from the three numbers that any two imports share. */
  function CountersOf(before: Db, payload: Payload, pools: nat, without: nat, served: nat): (int, int, int, int, int) {
    var created := pools - |before.pools|;
    (created, Labelled(payload.pools) - created, without,
     |before.tokens| + without - pools + Named(payload.tokens) - served, |Accepted(payload.settings)|)
  }

  lemma CountersFromNumbers(before: Db, payload: Payload, after: Db, c: Counters)
    requires Reports(before, payload, after, c) && |after.tokens| == |after.pools|
    ensures (c.createdPools, c.updatedPools, c.createdTokens, c.skippedTokens, c.updatedSettings)
         == CountersOf(before, payload, |after.pools|, |PoolsWithout(before.tokens, after.pools.Keys)|,
                       |ServedByEntries(after.pools, before.tokens, payload.tokens)|)
  {
  }

  /** Whatever ids and token values two imports of a payload into one database draw, they report the same counters. */
  lemma CountersAreDetermined(before: Db, payload: Payload, x: Db, c: Counters, y: Db, d: Counters)
    requires Linked(before)
    requires Imported(before, payload, x) && Reports(before, payload, x, c)
    requires Imported(before, payload, y) && Reports(before, payload, y, d)
    ensures c == d
  {
    SameCounts(before, payload, x.pools, y.pools);
    TokensAfter(before, payload, x);
    TokensAfter(before, payload, y);
    CountersFromNumbers(before, payload, x, c);
    CountersFromNumbers(before, payload, y, d);
  }

  // ----- The store -----

  class ConfigStore {
    var db: Db

    ghost predicate Valid() reads this { UniqueTitles(db.pools) && Linked(db) }

    /** Imports in one transaction; `committed` says whether the commit goes through. */
    method ImportConfig(payload: Payload, gen: nat -> Option<string>, committed: bool) returns (result: Option<Counters>)
      requires Valid()
      modifies this
      ensures Valid()
      ensures result.None? ==> db == old(db)
      ensures result.Some? ==> Imported(old(db), payload, db) && Absorbed(db, payload) && Clean(db.pools, db.tokens)
      ensures result.Some? ==> Reports(old(db), payload, db, result.value)
      ensures Absorbed(old(db), payload) && committed ==> result.Some? && db == old(db)
      ensures Absorbed(old(db), payload) && committed ==> result.value.createdPools == 0 && result.value.createdTokens == 0
    {
      var status, after, counters := RunImport(db, payload, gen);
      if !status.Done? || !committed { return None; }
      ImportAbsorbs(db, payload, after);
      ImportKeepsLinks(db, payload, after);
      if Absorbed(db, payload) { AbsorbedStays(db, payload, after); }
      db := after;
      return Some(counters);
    }

    /** The same steps, always rolled back. */
    method PreviewImport(payload: Payload, gen: nat -> Option<string>) returns (result: Option<Counters>)
      requires Valid()
      ensures result.Some? ==> forall e :: e in payload.tokens ==> Acceptable(db, payload, e)
      // Its counters are those of every successful import of the payload.
      ensures result.Some? ==> exists after :: Imported(db, payload, after) && Reports(db, payload, after, result.value)
      ensures result.Some? ==>
        forall after, c :: Imported(db, payload, after) && Reports(db, payload, after, c) ==> c == result.value
      ensures Absorbed(db, payload) ==> result.Some? && result.value.createdPools == 0 && result.value.createdTokens == 0
    {
      var status, after, counters := RunImport(db, payload, gen);
      if !status.Done? { return None; }
      if Absorbed(db, payload) { AbsorbedStays(db, payload, after); }
      forall other, c | Imported(db, payload, other) && Reports(db, payload, other, c) ensures c == counters {
        CountersAreDetermined(db, payload, other, c, after, counters);
      }
      return Some(counters);
    }
  }
}
