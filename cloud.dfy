/**
 * The cloud store of services/apiService.ts. The engine keeps its records
 * and sessions in one remote JSON bin: every operation first reads the bin
 * (`fetchRaw`), and the two logging operations then write the whole bin
 * back (`pushToCloud`). The network is not part of this model: whether the
 * read reaches the bin and whether the write is accepted are parameters,
 * and the remote bin is the engine's one field.
 */
module Cloud {
  import opened Wrappers
  import opened Types
  import opened Text

  /** `logSession` keeps the newest 30 sessions. */
  const MaxSessions: nat := 30

  /** `saveRecord` keeps the newest 10 records. */
  const MaxRecords: nat := 10

  /** The engine name every saved record carries. */
  const EngineName: string := "Majd Cloud Direct v9"

  /** The message `saveRecord` throws when the write is refused. */
  const PersistFailure: string := "Failed to persist to cloud storage"

  /** A field of the stored JSON object: an array of items, or anything else (missing, `null`, an object, ...). */
  datatype JsonField<T> = Array(items: seq<T>) | NotArray

  /** The remote bin, as the last accepted write left it. */
  datatype Bin = Bin(records: JsonField<GenerationRecord>, sessions: JsonField<SessionLog>)

  /** What `fetchRaw` returns: the two lists. */
  datatype Data = Data(records: seq<GenerationRecord>, sessions: seq<SessionLog>)

  function Min(a: int, b: int): int
  {
    if a <= b then a else b
  }

  function Max(a: int, b: int): int
  {
    if a <= b then b else a
  }

  /** The items of an array field; any other value reads as no items. */
  function ItemsOf<T>(f: JsonField<T>): seq<T>
  {
    if f.Array? then f.items else []
  }

  /**
   * `fetchRaw`: the bin's two arrays when the read succeeds (`read` is the
   * bin), a field that is not an array reading as an empty list; both lists
   * empty when the read fails (`None`: the request throws, the status is not
   * ok, or the body is not JSON).
   */
  function FetchRaw(read: Option<Bin>): (d: Data)
    ensures read.None? ==> d.records == [] && d.sessions == []
    ensures read.Some? ==> && (read.value.records.Array? ==> d.records == read.value.records.items)
                           && (read.value.records.NotArray? ==> d.records == [])
                           && (read.value.sessions.Array? ==> d.sessions == read.value.sessions.items)
                           && (read.value.sessions.NotArray? ==> d.sessions == [])
  {
    match read
    case None => Data([], [])
    case Some(bin) => Data(ItemsOf(bin.records), ItemsOf(bin.sessions))
  }

  /** The bin a write of `d` leaves behind (`JSON.stringify` of both lists). */
  function Pushed(d: Data): Bin
  {
    Bin(Array(d.records), Array(d.sessions))
  }

  /** Reading back a bin that was written gives exactly what was written. */
  lemma FetchPushed(d: Data)
    ensures FetchRaw(Some(Pushed(d))) == d
  {
  }

  /** `[x, ...xs].slice(0, n)`: `x` in front of the old items, cut to at most `n`. */
  function PrependBounded<T>(x: T, xs: seq<T>, n: nat): (r: seq<T>)
    ensures |r| == Min(n, |xs| + 1)
    ensures n >= 1 ==> r[0] == x && r[1..] == xs[..|r| - 1]
  {
    ([x] + xs)[..Min(n, |xs| + 1)]
  }

  /** The items in the opposite order. */
  function Reversed<T>(s: seq<T>): (r: seq<T>)
    ensures |r| == |s|
    ensures forall i :: 0 <= i < |s| ==> r[i] == s[|s| - 1 - i]
  {
    if s == [] then [] else Reversed(s[1..]) + [s[0]]
  }

  /** Prepending each of `items` in turn, the oldest first, keeping at most `n` each time. */
  function PrependEach<T>(items: seq<T>, xs: seq<T>, n: nat): seq<T>
    decreases |items|
  {
    if items == [] then xs else PrependEach(items[1..], PrependBounded(items[0], xs, n), n)
  }

  /**
   * After one or more bounded prepends the list holds the newest `n` items,
   * newest first: the new items in reverse order of arrival, then the old
   * ones, cut to `n`.
   */
  lemma {:induction false} KeepsNewest<T>(items: seq<T>, xs: seq<T>, n: nat)
    requires n >= 1 && items != []
    ensures PrependEach(items, xs, n) == (Reversed(items) + xs)[..Min(n, |items| + |xs|)]
    decreases |items|
  {
    var p := PrependBounded(items[0], xs, n);
    if |items| > 1 {
      var rest := items[1..];
      KeepsNewest(rest, p, n);
      var L := Min(n, |items| + |xs|);
      assert Min(n, |rest| + |p|) == L;
      assert Reversed(items) == Reversed(rest) + [items[0]];
      forall i | 0 <= i < L
        ensures (Reversed(rest) + p)[i] == (Reversed(items) + xs)[i]
      {
        if i >= |rest| {
          assert (Reversed(items) + xs)[i] == ([items[0]] + xs)[i - |rest|];
        }
      }
    }
  }

  /** `saveRecord`'s copy of the caller's record, with the id, time, status and engine it sets. */
  function Stamped(record: GenerationRecord, now: int): (r: GenerationRecord)
    ensures r.id == "rec_" + Decimal(now) && r.timestamp == now
    ensures r.status == Success && r.engine == EngineName
    ensures r.userId == record.userId && r.text == record.text && r.selection == record.selection
    ensures r.audioData == record.audioData && r.duration == record.duration
  {
    record.(id := "rec_" + Decimal(now), timestamp := now, status := Success, engine := EngineName)
  }

  /** Whatever the caller put in the id, time, status or engine of a record, the saved copy is the same. */
  lemma StampOverrides(a: GenerationRecord, b: GenerationRecord, now: int)
    requires a.userId == b.userId && a.text == b.text && a.selection == b.selection
    requires a.audioData == b.audioData && a.duration == b.duration
    ensures Stamped(a, now) == Stamped(b, now)
  {
  }

  /** `document.referrer || "Direct"`. */
  function Referrer(referrer: string): (r: string)
    ensures r != ""
    ensures referrer != "" ==> r == referrer
    ensures referrer == "" ==> r == "Direct"
  {
    if referrer == "" then "Direct" else referrer
  }

  /** The session `logSession` records for a visit at time `now`. */
  function NewSession(userId: string, now: int, referrer: string): (s: SessionLog)
    ensures s.id == "sess_" + Decimal(now) && s.userId == userId
    ensures s.startTime == now && s.lastActive == now
    ensures s.country == "Global" && s.countryCode == "WW"
    ensures s.referrer == Referrer(referrer) && s.browser == "WebBrowser" && s.device == "Standard"
  {
    SessionLog("sess_" + Decimal(now), userId, now, now, "Global", "WW", Referrer(referrer), "WebBrowser", "Standard")
  }

  /**
   * The data `logSession` writes: the records as read, the new session in
   * front of the sessions as read, at most 30 of them. When the read failed
   * that is no record and the new session alone.
   */
  function AfterLog(read: Option<Bin>, s: SessionLog): (d: Data)
    ensures d.records == FetchRaw(read).records
    ensures |d.sessions| == Min(MaxSessions, |FetchRaw(read).sessions| + 1) && d.sessions[0] == s
    ensures d.sessions[1..] == FetchRaw(read).sessions[..|d.sessions| - 1]
    ensures read.None? ==> d == Data([], [s])
  {
    var data := FetchRaw(read);
    data.(sessions := PrependBounded(s, data.sessions, MaxSessions))
  }

  /**
   * The data `saveRecord` writes: the stamped record in front of the records
   * as read, at most 10 of them, and the sessions as read. When the read
   * failed that is the new record alone and no session.
   */
  function AfterSave(read: Option<Bin>, r: GenerationRecord): (d: Data)
    ensures d.sessions == FetchRaw(read).sessions
    ensures |d.records| == Min(MaxRecords, |FetchRaw(read).records| + 1) && d.records[0] == r
    ensures d.records[1..] == FetchRaw(read).records[..|d.records| - 1]
    ensures read.None? ==> d == Data([r], [])
  {
    var data := FetchRaw(read);
    data.(records := PrependBounded(r, data.records, MaxRecords))
  }

  /** `records.filter(r => r.user_id === userId)`. */
  function UserRecords(records: seq<GenerationRecord>, userId: string): (r: seq<GenerationRecord>)
    ensures |r| <= |records|
  {
    if records == [] then []
    else if records[0].userId == userId then [records[0]] + UserRecords(records[1..], userId)
    else UserRecords(records[1..], userId)
  }

  /** Filtering keeps every record of the user as often as it occurs, and no other record. */
  lemma {:induction false} UserRecordsExact(records: seq<GenerationRecord>, userId: string, x: GenerationRecord)
    ensures multiset(UserRecords(records, userId))[x] == if x.userId == userId then multiset(records)[x] else 0
    decreases |records|
  {
    if records != [] {
      UserRecordsExact(records[1..], userId, x);
      assert records == [records[0]] + records[1..];
    }
  }

  /** A record is among the user's records exactly when it is stored and belongs to the user. */
  lemma UserRecordsMembers(records: seq<GenerationRecord>, userId: string, x: GenerationRecord)
    ensures x in UserRecords(records, userId) <==> x in records && x.userId == userId
  {
    UserRecordsExact(records, userId, x);
  }

  /** Filtering a concatenation filters each part, so the stored order is kept. */
  lemma {:induction false} UserRecordsAppend(a: seq<GenerationRecord>, b: seq<GenerationRecord>, userId: string)
    ensures UserRecords(a + b, userId) == UserRecords(a, userId) + UserRecords(b, userId)
    decreases |a|
  {
    if a == [] {
      assert a + b == b;
    } else {
      UserRecordsAppend(a[1..], b, userId);
      assert (a + b)[0] == a[0] && (a + b)[1..] == a[1..] + b;
      if a[0].userId == userId {
        calc {
          UserRecords(a + b, userId);
          [a[0]] + (UserRecords(a[1..], userId) + UserRecords(b, userId));
          ([a[0]] + UserRecords(a[1..], userId)) + UserRecords(b, userId);
        }
      }
    }
  }

  /** A record just saved and read back is the first of its user's records. */
  lemma SavedRecordListedFirst(read: Option<Bin>, record: GenerationRecord, now: int)
    ensures var listed := UserRecords(FetchRaw(Some(Pushed(AfterSave(read, Stamped(record, now))))).records, record.userId);
      |listed| >= 1 && listed[0] == Stamped(record, now)
  {
  }

  /** The distinct user ids of the sessions (`new Set(sessions.map(s => s.user_id))`). */
  function UserIds(sessions: seq<SessionLog>): (ids: set<string>)
    ensures forall u :: u in ids <==> exists i :: 0 <= i < |sessions| && sessions[i].userId == u
    ensures |ids| <= |sessions|
  {
    if sessions == [] then {}
    else
      var rest := UserIds(sessions[1..]);
      assert forall i :: 1 <= i < |sessions| ==> sessions[1..][i - 1] == sessions[i];
      {sessions[0].userId} + rest
  }

  /** `new Set(...).size || 1`: the number of distinct users, counting one when there is no session. */
  function UserCount(sessions: seq<SessionLog>): (n: nat)
    ensures 1 <= n <= Max(1, |sessions|)
    ensures sessions != [] ==> n == |UserIds(sessions)|
  {
    var ids := UserIds(sessions);
    if |ids| == 0 then 1
    else
      |ids|
  }

  /** The user count is one exactly when all sessions belong to the same user (or there is none). */
  lemma SingleUser(sessions: seq<SessionLog>)
    ensures UserCount(sessions) == 1 <==>
              forall i, j :: 0 <= i < |sessions| && 0 <= j < |sessions| ==> sessions[i].userId == sessions[j].userId
  {
    var ids := UserIds(sessions);
    if sessions != [] {
      var u := sessions[0].userId;
      if forall i, j :: 0 <= i < |sessions| && 0 <= j < |sessions| ==> sessions[i].userId == sessions[j].userId {
        assert ids == {u};
      } else if |ids| == 1 {
        var others := ids - {u};
        assert ids == others + {u} && u !in others;
        assert |others| == 0;
        assert ids == {u};
        forall i | 0 <= i < |sessions|
          ensures sessions[i].userId == u
        {
          assert sessions[i].userId in ids;
        }
      }
    }
  }

  /** `b.duration || 0`: a missing duration counts as zero. */
  function DurationOrZero(r: GenerationRecord): (d: real)
    ensures r.duration.None? ==> d == 0.0
    ensures r.duration.Some? ==> d == r.duration.value
  {
    r.duration.GetOr(0.0)
  }

  /** `records.reduce((a, b) => a + (b.duration || 0), 0)`, added from the left. */
  function TotalDuration(records: seq<GenerationRecord>): (t: real)
    ensures (forall i :: 0 <= i < |records| ==> records[i].duration.None?) ==> t == 0.0
    ensures (forall i :: 0 <= i < |records| ==> records[i].duration.Some?) && |records| == 1 ==> t == records[0].duration.value
  {
    if records == [] then 0.0 else TotalDuration(records[..|records| - 1]) + DurationOrZero(records[|records| - 1])
  }

  /** The total of a concatenation is the sum of the totals. */
  lemma {:induction false} TotalDurationAppend(a: seq<GenerationRecord>, b: seq<GenerationRecord>)
    ensures TotalDuration(a + b) == TotalDuration(a) + TotalDuration(b)
    decreases |b|
  {
    if b == [] {
      assert a + b == a;
    } else {
      var b' := b[..|b| - 1];
      TotalDurationAppend(a, b');
      assert (a + b)[..|a + b| - 1] == a + b' && (a + b)[|a + b| - 1] == b[|b| - 1];
    }
  }

  /** Saving a record in front adds its duration to the total (as long as nothing is cut off). */
  lemma TotalDurationPrepend(r: GenerationRecord, records: seq<GenerationRecord>)
    ensures TotalDuration([r] + records) == DurationOrZero(r) + TotalDuration(records)
  {
    TotalDurationAppend([r], records);
    assert [r][..0] == [];
  }

  /** With no negative duration stored, the total is not negative and bounds every single duration. */
  lemma {:induction false} TotalDurationBounds(records: seq<GenerationRecord>)
    requires forall i :: 0 <= i < |records| ==> DurationOrZero(records[i]) >= 0.0
    ensures TotalDuration(records) >= 0.0
    ensures forall i :: 0 <= i < |records| ==> DurationOrZero(records[i]) <= TotalDuration(records)
    decreases |records|
  {
    if records != [] {
      var front := records[..|records| - 1];
      TotalDurationBounds(front);
    }
  }

  /** Dividing by a positive number and multiplying back gives the number. */
  lemma QuotientTimesDivisor(a: real, b: real)
    requires b > 0.0
    ensures (a / b) * b == a
  {
  }

  /** `records.length / uniqueUsers`: the records per user, which times the users gives back the records. */
  function PerUser(records: nat, users: nat): (avg: real)
    requires users >= 1
    ensures avg * users as real == records as real
    ensures 0.0 <= avg <= records as real
  {
    QuotientTimesDivisor(records as real, users as real);
    records as real / users as real
  }

  /** The success rate the dashboard shows, whatever is stored. */
  const SuccessRate: nat := 100

  /** The average session length the dashboard shows, whatever is stored; the code gives no unit. */
  const AvgSessionDuration: nat := 5

  /**
   * `getGlobalStats` over the data read: the user count, the record count,
   * the total duration, records per user, and fixed figures elsewhere.
   */
  function Stats(d: Data): (g: GlobalStats)
    ensures 1 <= g.totalUsers <= Max(1, |d.sessions|) && g.totalUsers == UserCount(d.sessions)
    ensures g.totalRecords == |d.records| && g.totalDuration == TotalDuration(d.records)
    ensures g.avgVoicesPerUser == PerUser(g.totalRecords, g.totalUsers)
    ensures g.successRate == SuccessRate && g.avgSessionDuration == AvgSessionDuration
    ensures g.topCountries == [] && g.topSources == [] && g.deviceStats == map[]
  {
    var users := UserCount(d.sessions);
    GlobalStats(users, |d.records|, TotalDuration(d.records), SuccessRate,
                PerUser(|d.records|, users), AvgSessionDuration, [], [], map[])
  }

  /** The read outcome: the bin itself when it is reachable, a failure otherwise. */
  function ReadOf(bin: Bin, reachable: bool): Option<Bin>
  {
    if reachable then Some(bin) else None
  }

  /** `MajdCloudEngine`, with the remote bin it reads and writes. */
  class CloudEngine {
    var bin: Bin

    constructor (initial: Bin)
      ensures bin == initial
    {
      bin := initial;
    }

    /** `pushToCloud`: the bin becomes `data` when the write is accepted; the answer says whether it was. */
    method PushToCloud(data: Data, accepted: bool) returns (ok: bool)
      modifies this
      ensures ok == accepted
      ensures bin == if accepted then Pushed(data) else old(bin)
    {
      if accepted {
        bin := Pushed(data);
      }
      ok := accepted;
    }

    /**
     * `logSession`: reads the bin, puts the new session in front of the
     * sessions read, keeps 30, and writes the bin back whatever the write's
     * answer; returns the new session.
     */
    method LogSession(userId: string, now: int, referrer: string, reachable: bool, accepted: bool) returns (s: SessionLog)
      modifies this
      ensures s == NewSession(userId, now, referrer)
      ensures bin == if accepted then Pushed(AfterLog(ReadOf(old(bin), reachable), s)) else old(bin)
    {
      var data := FetchRaw(ReadOf(bin, reachable));
      s := NewSession(userId, now, referrer);
      data := data.(sessions := PrependBounded(s, data.sessions, MaxSessions));
      var _ := PushToCloud(data, accepted);
    }

    /**
     * `saveRecord`: reads the bin, puts the stamped record in front of the
     * records read, keeps 10, and writes the bin back; the stamped record
     * when the write is accepted, an error otherwise.
     */
    method SaveRecord(record: GenerationRecord, now: int, reachable: bool, accepted: bool)
      returns (r: Result<GenerationRecord>)
      modifies this
      ensures r.Ok? <==> accepted
      ensures r.Ok? ==> r.value == Stamped(record, now)
      ensures r.Err? ==> r.message == PersistFailure
      ensures bin == if accepted then Pushed(AfterSave(ReadOf(old(bin), reachable), Stamped(record, now))) else old(bin)
    {
      var data := FetchRaw(ReadOf(bin, reachable));
      var newRecord := Stamped(record, now);
      data := data.(records := PrependBounded(newRecord, data.records, MaxRecords));
      var success := PushToCloud(data, accepted);
      if !success {
        return Err(PersistFailure);
      }
      r := Ok(newRecord);
    }

    /** `getUserRecords`: the records read that belong to the user, in stored order. */
    method GetUserRecords(userId: string, reachable: bool) returns (rs: seq<GenerationRecord>)
      ensures forall x :: x in rs <==> x in FetchRaw(ReadOf(bin, reachable)).records && x.userId == userId
      ensures rs == UserRecords(FetchRaw(ReadOf(bin, reachable)).records, userId)
    {
      var data := FetchRaw(ReadOf(bin, reachable));
      rs := UserRecords(data.records, userId);
      forall x {
        UserRecordsMembers(data.records, userId, x);
      }
    }

    /** `getAllRecords` (and `forceSync`, which is the same call): every record read. */
    method GetAllRecords(reachable: bool) returns (rs: seq<GenerationRecord>)
      ensures reachable && bin.records.Array? ==> rs == bin.records.items
      ensures !reachable || bin.records.NotArray? ==> rs == []
    {
      var data := FetchRaw(ReadOf(bin, reachable));
      rs := data.records;
    }

    /** `getGlobalStats`: the dashboard figures of the data read. */
    method GetGlobalStats(reachable: bool) returns (g: GlobalStats)
      ensures g == Stats(FetchRaw(ReadOf(bin, reachable)))
      ensures !reachable ==> g.totalUsers == 1 && g.totalRecords == 0 && g.totalDuration == 0.0
    {
      var data := FetchRaw(ReadOf(bin, reachable));
      g := Stats(data);
    }
  }
}
