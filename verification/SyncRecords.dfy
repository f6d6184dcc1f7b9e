/** The bounded list of sync records (`AddSyncRecord` and `trimSyncRecordsLocked` in internal/server/store.go). */
module SyncRecords {
  import opened Model

  datatype SyncRecord = SyncRecord(id: Id, account: string, text: string)

  /** How many records of the account there are. */
  function Own(records: seq<SyncRecord>, account: string): nat {
    if records == [] then 0
    else (if records[0].account == account then 1 else 0) + Own(records[1..], account)
  }

  /** What one pass keeps: a record of the account goes when, counted from the end, it is beyond the limit. */
  function Trimmed(records: seq<SyncRecord>, account: string, limit: nat): seq<SyncRecord> {
    if records == [] then []
    else
      (if records[0].account == account && Own(records, account) > limit then [] else [records[0]])
      + Trimmed(records[1..], account, limit)
  }

  // ---------------------------------------------------------------- what the pass means

  /** The records of the account, in order. */
  function OwnRecords(records: seq<SyncRecord>, account: string): (r: seq<SyncRecord>)
    ensures |r| == Own(records, account)
  {
    if records == [] then []
    else (if records[0].account == account then [records[0]] else []) + OwnRecords(records[1..], account)
  }

  /** The records of all other accounts, in order. */
  function OtherRecords(records: seq<SyncRecord>, account: string): seq<SyncRecord> {
    if records == [] then []
    else (if records[0].account == account then [] else [records[0]]) + OtherRecords(records[1..], account)
  }

  /** `a` arises from `b` by leaving records out. */
  predicate Subsequence(a: seq<SyncRecord>, b: seq<SyncRecord>) {
    if a == [] then true
    else if b == [] then false
    else if a[0] == b[0] then Subsequence(a[1..], b[1..]) else Subsequence(a, b[1..])
  }

  function Newest(records: seq<SyncRecord>, limit: nat): seq<SyncRecord> {
    if |records| <= limit then records else records[|records| - limit..]
  }

  lemma {:induction false} SkipOne(a: seq<SyncRecord>, b: seq<SyncRecord>)
    requires a != [] && Subsequence(a, b)
    ensures Subsequence(a[1..], b)
  {
    if a[0] == b[0] {
      if |a| > 1 { SubsequenceDrop(a[1..], b); }
    } else {
      SkipOne(a, b[1..]);
      if a[1..] != [] { SubsequenceDrop(a[1..], b); }
    }
  }

  lemma {:induction false} SubsequenceDrop(a: seq<SyncRecord>, b: seq<SyncRecord>)
    requires b != [] && Subsequence(a, b[1..])
    ensures Subsequence(a, b)
  {
    if a != [] && a[0] == b[0] { SkipOne(a, b[1..]); }
  }

  /** One unfolding of the pass. */
  lemma TrimmedStep(records: seq<SyncRecord>, account: string, limit: nat)
    requires records != []
    ensures Trimmed(records, account, limit)
         == if records[0].account == account && Own(records, account) > limit then Trimmed(records[1..], account, limit)
            else [records[0]] + Trimmed(records[1..], account, limit)
  {
  }

  /** A record that comes before the newest ones. */
  lemma NewestCons(r: SyncRecord, records: seq<SyncRecord>, limit: nat)
    ensures Newest([r] + records, limit) == if |records| < limit then [r] + records else Newest(records, limit)
  {
  }

  lemma {:induction false} TrimmedOwn(records: seq<SyncRecord>, account: string, limit: nat)
    ensures OwnRecords(Trimmed(records, account, limit), account) == Newest(OwnRecords(records, account), limit)
  {
    if records != [] {
      var rest := Trimmed(records[1..], account, limit);
      TrimmedOwn(records[1..], account, limit);
      TrimmedStep(records, account, limit);
      NewestCons(records[0], OwnRecords(records[1..], account), limit);
      OwnUnfold([records[0]] + rest, account);
      OwnUnfold(records, account);
      AllNewest(OwnRecords(records[1..], account), limit);
      assert ([records[0]] + rest)[1..] == rest;
      hide Trimmed, OwnRecords, Newest, Own;
    }
  }

  lemma AllNewest(records: seq<SyncRecord>, limit: nat)
    ensures |records| <= limit ==> Newest(records, limit) == records
  {
  }

  lemma OwnUnfold(records: seq<SyncRecord>, account: string)
    requires records != []
    ensures OwnRecords(records, account)
         == (if records[0].account == account then [records[0]] else []) + OwnRecords(records[1..], account)
  {
  }

  lemma {:induction false} TrimmedOthers(records: seq<SyncRecord>, account: string, limit: nat)
    ensures OtherRecords(Trimmed(records, account, limit), account) == OtherRecords(records, account)
  {
    if records != [] {
      var rest := Trimmed(records[1..], account, limit);
      TrimmedOthers(records[1..], account, limit);
      TrimmedStep(records, account, limit);
      hide Trimmed;
      assert ([records[0]] + rest)[1..] == rest;
    }
  }

  lemma {:induction false} TrimmedSubsequence(records: seq<SyncRecord>, account: string, limit: nat)
    ensures Subsequence(Trimmed(records, account, limit), records)
  {
    if records != [] {
      var rest := Trimmed(records[1..], account, limit);
      TrimmedSubsequence(records[1..], account, limit);
      TrimmedStep(records, account, limit);
      hide Trimmed;
      SubsequenceDrop(rest, records);
      assert ([records[0]] + rest)[1..] == rest;
    }
  }

  /** The pass keeps the account's newest records up to the limit and all records of other accounts, in the
      original order. */
  lemma TrimmedIsFilter(records: seq<SyncRecord>, account: string, limit: nat)
    ensures var kept := Trimmed(records, account, limit);
            OwnRecords(kept, account) == Newest(OwnRecords(records, account), limit)
            && OtherRecords(kept, account) == OtherRecords(records, account)
            && Subsequence(kept, records)
  {
    hide *;
    TrimmedOwn(records, account, limit);
    TrimmedOthers(records, account, limit);
    TrimmedSubsequence(records, account, limit);
  }

  lemma {:induction false} OtherOwn(records: seq<SyncRecord>, account: string, other: string)
    requires other != account
    ensures Own(OtherRecords(records, account), other) == Own(records, other)
  {
    if records != [] {
      OtherOwn(records[1..], account, other);
      if records[0].account != account {
        assert OtherRecords(records, account)[1..] == OtherRecords(records[1..], account);
      } else {
        assert OtherRecords(records, account) == OtherRecords(records[1..], account);
      }
    }
  }

  lemma {:induction false} OwnAppend(records: seq<SyncRecord>, r: SyncRecord, account: string)
    ensures Own(records + [r], account) == Own(records, account) + if r.account == account then 1 else 0
  {
    if records != [] {
      assert (records + [r])[1..] == records[1..] + [r];
      OwnAppend(records[1..], r, account);
    }
  }

  /** Every account is within the limit. */
  ghost predicate Bounded(records: seq<SyncRecord>, limit: nat) {
    forall account :: Own(records, account) <= limit
  }

  /** Adding a record and trimming for its account keeps every account within the limit. */
  lemma AddKeepsBound(records: seq<SyncRecord>, r: SyncRecord, limit: nat)
    requires Bounded(records, limit)
    ensures Bounded(Trimmed(records + [r], r.account, limit), limit)
  {
    var all := records + [r];
    var kept := Trimmed(all, r.account, limit);
    TrimmedIsFilter(all, r.account, limit);
    forall account ensures Own(kept, account) <= limit {
      OwnAppend(records, r, account);
      if account == r.account {
        assert |OwnRecords(kept, account)| == Own(kept, account);
      } else {
        OtherOwn(kept, r.account, account);
        OtherOwn(all, r.account, account);
      }
    }
  }

  // ---------------------------------------------------------------- the loop of the store

  class RecordList {
    var records: seq<SyncRecord>

    constructor ()
      ensures records == []
    {
      records := [];
    }

    /** `trimSyncRecordsLocked`: walk backward, cutting out what is beyond the limit. */
    method Trim(account: string)
      modifies this
      ensures records == Trimmed(old(records), account, MAX_SYNC_RECORDS_PER_ACCOUNT)
    {
      var count := 0;
      var i := |records|;
      ghost var all := records;
      while i > 0
        invariant 0 <= i <= |all|
        invariant count == Own(all[i..], account)
        invariant records == all[..i] + Trimmed(all[i..], account, MAX_SYNC_RECORDS_PER_ACCOUNT)
      {
        i := i - 1;
        assert all[i..][1..] == all[i + 1..];
        assert records[i] == all[i];
        assert all[..i + 1] == all[..i] + [all[i]];
        if records[i].account == account {
          count := count + 1;
          if count > MAX_SYNC_RECORDS_PER_ACCOUNT {
            records := records[..i] + records[i + 1..];
          }
        }
      }
    }

    /** `AddSyncRecord`, after its arguments were checked. */
    method Add(r: SyncRecord)
      requires Bounded(records, MAX_SYNC_RECORDS_PER_ACCOUNT)
      modifies this
      ensures records == Trimmed(old(records) + [r], r.account, MAX_SYNC_RECORDS_PER_ACCOUNT)
      ensures Bounded(records, MAX_SYNC_RECORDS_PER_ACCOUNT)
    {
      AddKeepsBound(records, r, MAX_SYNC_RECORDS_PER_ACCOUNT);
      records := records + [r];
      Trim(r.account);
    }
  }
}
