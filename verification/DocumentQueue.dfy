/** internal/queue/document_queue.go: the wire format of a job message and the paged scan for stale entries. */
module RedisDocumentQueue {
  import opened Optional
  import opened Text

  // Decimal numbers, as the Redis client writes them and strconv.Atoi reads them -----------------------

  const MAX_INT := 0x7FFF_FFFF_FFFF_FFFF

  function DigitChar(d: nat): char
    requires d < 10
  {
    '0' + d as char
  }

  predicate IsDigit(c: char) { '0' <= c <= '9' }

  function DigitOf(c: char): nat
    requires IsDigit(c)
  {
    c as int - '0' as int
  }

  function Itoa(n: nat): string {
    if n < 10 then [DigitChar(n)] else Itoa(n / 10) + [DigitChar(n % 10)]
  }

  function DigitsValue(s: string): Option<nat> {
    if s == "" then Some(0)
    else
      var front := DigitsValue(s[..|s| - 1]);
      if front.None? || !IsDigit(s[|s| - 1]) then None else Some(10 * front.value + DigitOf(s[|s| - 1]))
  }

  /** strconv.Atoi: an optional sign, then digits, within 64 bits. */
  function Atoi(s: string): Option<int> {
    var negative := s != "" && s[0] == '-';
    var digits := if s != "" && (s[0] == '-' || s[0] == '+') then s[1..] else s;
    var value := DigitsValue(digits);
    if digits == "" || value.None? then None
    else if negative then (if value.value <= MAX_INT + 1 then Some(0 - value.value) else None)
    else if value.value <= MAX_INT then Some(value.value) else None
  }

  lemma {:induction false} DigitsOfItoa(n: nat)
    ensures Itoa(n) != "" && IsDigit(Itoa(n)[0]) && DigitsValue(Itoa(n)) == Some(n)
    decreases n
  {
    if n < 10 {
      assert Itoa(n)[..0] == "";
      assert DigitsValue("") == Some(0);
    } else {
      DigitsOfItoa(n / 10);
      assert Itoa(n)[..|Itoa(n)| - 1] == Itoa(n / 10);
    }
  }

  lemma {:induction false} AtoiOfItoa(n: nat)
    requires n <= MAX_INT
    ensures Atoi(Itoa(n)) == Some(n)
  {
    DigitsOfItoa(n);
  }

  // Messages ---------------------------------------------------------------------------------------------

  /** time.Time, with the RFC 3339 codec of the time package; zero is the zero time. */
  type Time = int
  datatype Codec = Codec(format: Time -> string, parse: string -> Option<Time>)

  datatype Message = Message(id: nat, jobID: string, kbID: string, fileID: string, createdAt: Time, schema: int)
  datatype Delivery = Good(message: Message) | Poison(id: nat)

  /** An entry of the stream: its id and its fields. */
  datatype Raw = Raw(id: nat, values: map<string, string>)

  function ValueString(values: map<string, string>, field: string): string {
    if field in values then values[field] else ""
  }

  function ParseMessage(codec: Codec, raw: Raw): Delivery {
    var jobID := ValueString(raw.values, "job_id");
    var createdAt := codec.parse(ValueString(raw.values, "created_at"));
    var schema := Atoi(ValueString(raw.values, "schema"));
    if jobID == "" || createdAt.None? || schema.None? || schema.value <= 0 then Poison(raw.id)
    else Good(Message(raw.id, jobID, ValueString(raw.values, "kb_id"), ValueString(raw.values, "file_id"),
                      createdAt.value, schema.value))
  }

  /** Publish's defaults. */
  function Completed(m: Message, now: Time): Message {
    m.(createdAt := if m.createdAt == 0 then now else m.createdAt, schema := if m.schema <= 0 then 1 else m.schema)
  }

  function FieldsOf(codec: Codec, m: Message): map<string, string>
    requires m.schema > 0
  {
    map["job_id" := m.jobID, "kb_id" := m.kbID, "file_id" := m.fileID, "created_at" := codec.format(m.createdAt),
        "schema" := Itoa(m.schema)]
  }

  lemma {:induction false} BlankOfEmpty()
    ensures Blank("")
  {
  }

  /** A message written by Publish is never taken for poison: it is read back whole, with its defaults filled in. */
  lemma {:induction false} PublishedIsRead(codec: Codec, m: Message, now: Time, id: nat)
    requires !Blank(m.jobID) && Completed(m, now).schema <= MAX_INT
    requires var t := Completed(m, now).createdAt; codec.parse(codec.format(t)) == Some(t)
    ensures ParseMessage(codec, Raw(id, FieldsOf(codec, Completed(m, now)))) == Good(Completed(m, now).(id := id))
  {
    AtoiOfItoa(Completed(m, now).schema);
    BlankOfEmpty();
  }

  // The pending list ----------------------------------------------------------------------------------------

  /** An entry of the pending list; ids ascend. */
  datatype Pending = Pending(id: nat, consumer: string, idle: nat)

  predicate Ascending(pending: seq<Pending>) {
    forall i, j :: 0 <= i < j < |pending| ==> pending[i].id < pending[j].id
  }

  /** The lower bound of a scan: "-", or "(" and an id. */
  datatype Start = Minimum | Above(id: nat)

  predicate Reaches(start: Start, id: nat) {
    start.Minimum? || start.id < id
  }

  function Range(pending: seq<Pending>, start: Start): seq<Pending> {
    if pending == [] then []
    else if Reaches(start, pending[0].id) then [pending[0]] + Range(pending[1..], start)
    else Range(pending[1..], start)
  }

  function Min(a: nat, b: nat): nat {
    if a < b then a else b
  }

  /** XPENDING with a range and a count. */
  function XPendingExt(pending: seq<Pending>, start: Start, count: nat): seq<Pending> {
    var range := Range(pending, start);
    range[..Min(count, |range|)]
  }

  lemma {:induction false} RangeAll(pending: seq<Pending>, start: Start)
    requires forall i :: 0 <= i < |pending| ==> Reaches(start, pending[i].id)
    ensures Range(pending, start) == pending
    decreases |pending|
  {
    if pending != [] {
      RangeAll(pending[1..], start);
    }
  }

  /** Starting above the last id of a page leaves exactly what comes after it. */
  lemma {:induction false} RangeAbove(pending: seq<Pending>, k: nat)
    requires Ascending(pending) && 0 < k <= |pending|
    ensures Range(pending, Above(pending[k - 1].id)) == pending[k..]
    decreases |pending|
  {
    var start := Above(pending[k - 1].id);
    if k == 1 {
      RangeAll(pending[1..], start);
    } else {
      RangeAbove(pending[1..], k - 1);
      assert pending[1..][k - 1..] == pending[k..];
    }
  }

  /** The ids that have been idle for at least minIdle, in order. */
  function Stale(pending: seq<Pending>, minIdle: nat): (ids: seq<nat>)
    ensures |ids| <= |pending|
  {
    if pending == [] then []
    else
      var n := |pending| - 1;
      Stale(pending[..n], minIdle) + if pending[n].idle >= minIdle then [pending[n].id] else []
  }

  /** The first count stale ids: what a scan without pages would select. */
  function FirstStale(pending: seq<Pending>, minIdle: nat, count: nat): seq<nat> {
    Stale(pending, minIdle)[..Min(count, |Stale(pending, minIdle)|)]
  }

  lemma {:induction false} StalePrefix(pending: seq<Pending>, k: nat, minIdle: nat)
    requires k <= |pending|
    ensures Stale(pending[..k], minIdle) <= Stale(pending, minIdle)
    decreases |pending|
  {
    if k == |pending| {
      assert pending[..k] == pending;
    } else {
      var n := |pending| - 1;
      StalePrefix(pending[..n], k, minIdle);
      assert pending[..n][..k] == pending[..k];
    }
  }

  /** Once count ids have been selected from a prefix, the rest of the list adds nothing. */
  lemma {:induction false} FullPrefix(pending: seq<Pending>, k: nat, minIdle: nat, count: nat)
    requires k <= |pending| && count <= |Stale(pending[..k], minIdle)|
    ensures FirstStale(pending, minIdle, count) == FirstStale(pending[..k], minIdle, count)
  {
    StalePrefix(pending, k, minIdle);
  }

  /** Selected ids are pending, stale and distinct. */
  lemma {:induction false} StaleFacts(pending: seq<Pending>, minIdle: nat, id: nat)
    ensures id in Stale(pending, minIdle) <==>
        exists i :: 0 <= i < |pending| && pending[i].id == id && pending[i].idle >= minIdle
    decreases |pending|
  {
    if pending != [] {
      var n := |pending| - 1;
      StaleFacts(pending[..n], minIdle, id);
      if id in Stale(pending, minIdle) {
        if id in Stale(pending[..n], minIdle) {
          var i :| 0 <= i < n && pending[..n][i].id == id && pending[..n][i].idle >= minIdle;
          assert pending[i].id == id;
        } else {
          assert pending[n].id == id;
        }
      }
      if i :| 0 <= i < |pending| && pending[i].id == id && pending[i].idle >= minIdle {
        if i < n {
          assert pending[..n][i].id == id;
        }
      }
    }
  }

  /** XCLAIM: entries that are still pending and still idle go to the consumer; their idle time starts again. */
  function XClaim(pending: seq<Pending>, consumer: string, minIdle: nat, ids: seq<nat>): seq<Pending> {
    seq(|pending|, i requires 0 <= i < |pending| =>
      if pending[i].id in ids && pending[i].idle >= minIdle then Pending(pending[i].id, consumer, 0) else pending[i])
  }

  /** The deliveries for the ids whose entries are still in the stream. */
  function Deliveries(codec: Codec, entries: map<nat, map<string, string>>, ids: seq<nat>): seq<Delivery> {
    if ids == [] then []
    else
      var n := |ids| - 1;
      Deliveries(codec, entries, ids[..n]) + if ids[n] in entries
          then [ParseMessage(codec, Raw(ids[n], entries[ids[n]]))] else []
  }

  datatype Error = JobIDRequired | ConsumerRequired | CountNotPositive | RedisError
  datatype Result<T> = Ok(value: T) | Err(error: Error)

  lemma {:induction false} NothingScanned(pending: seq<Pending>, minIdle: nat, count: nat)
    ensures FirstStale(pending[..0], minIdle, count) == []
  {
  }

  lemma {:induction false} SelectionDone(pending: seq<Pending>, k: nat, minIdle: nat, count: nat)
    requires k <= |pending| && (k == |pending| || |FirstStale(pending[..k], minIdle, count)| >= count)
    ensures FirstStale(pending[..k], minIdle, count) == FirstStale(pending, minIdle, count)
  {
    if k == |pending| {
      assert pending[..k] == pending;
    } else {
      FullPrefix(pending, k, minIdle, count);
    }
  }

  /** A page is the next stretch of the list, and a short page is the last one. */
  lemma {:induction false} PageIsNext(pending: seq<Pending>, start: Start, k: nat, count: nat)
    requires Ascending(pending) && k <= |pending| && Range(pending, start) == pending[k..]
    ensures var items := XPendingExt(pending, start, count);
            var end := k + |items|;
            && end <= |pending| && pending[..k] + items == pending[..end] && (|items| < count ==>
                end == |pending|) && |items| <= count
            && (items != [] ==> Range(pending, Above(items[|items| - 1].id)) == pending[end..])
  {
    hide Range, Ascending;
    var items := XPendingExt(pending, start, count);
    if items != [] {
      RangeAbove(pending, k + |items|);
    }
  }

  class DocumentQueue {
    const codec: Codec
    var entries: map<nat, map<string, string>>
    var lastID: nat
    var pending: seq<Pending>

    constructor (codec: Codec)
      ensures Valid() && this.codec == codec && entries == map[] && pending == []
    {
      this.codec := codec;
      entries, lastID, pending := map[], 0, [];
    }

    ghost predicate Valid()
      reads this
    {
      && Ascending(pending)
      && (forall i :: 0 <= i < |pending| ==> pending[i].id <= lastID)
      && forall id :: id in entries ==> id <= lastID
    }

    method Publish(m: Message, now: Time, available: bool) returns (r: Result<nat>)
      requires Valid()
      modifies this
      ensures Valid() && pending == old(pending)
      ensures Blank(m.jobID) ==> r == Err(JobIDRequired)
      ensures !Blank(m.jobID) ==> r == if available then Ok(old(lastID) + 1) else Err(RedisError)
      ensures r.Err? ==> entries == old(entries)
      ensures r.Ok? ==> r.value !in old(entries) && entries == old(entries)[r.value := FieldsOf(codec,
          Completed(m, now))]
    {
      if TrimSpace(m.jobID) == "" {
        return Err(JobIDRequired);
      }
      var message := m;
      if message.createdAt == 0 {
        message := message.(createdAt := now);
      }
      if message.schema <= 0 {
        message := message.(schema := 1);
      }
      if !available {
        return Err(RedisError);
      }
      lastID := lastID + 1;
      entries := entries[lastID := FieldsOf(codec, message)];
      return Ok(lastID);
    }

    /** The scan of ClaimStale. fails says which page requests fail; the first that does ends the scan. */
    method SelectStale(minIdle: nat, count: nat, fails: nat -> bool) returns (r: Result<seq<nat>>, ghost pages: nat)
      requires Valid() && count > 0
      ensures r.Ok? ==> r.value == FirstStale(pending, minIdle, count)
      ensures pages > 0 && forall p: nat :: p < pages - 1 ==> !fails(p)
      ensures if fails(pages - 1) then r == Err(RedisError) else r.Ok?
    {
      hide Range, XPendingExt, FirstStale, Ascending;
      var pageSize := if count < 100 then 100 else count;
      var ids: seq<nat> := [];
      var start := Minimum;
      var page := 0;
      ghost var k := 0;
      pages := 0;
      RangeAll(pending, Minimum);
      NothingScanned(pending, minIdle, count);
      while |ids| < count
        invariant k <= |pending| && Range(pending, start) == pending[k..]
        invariant ids == FirstStale(pending[..k], minIdle, count)
        invariant pages == page && (forall p: nat :: p < page ==> !fails(p)) && (page == 0 ==> ids == [])
        decreases |pending| - k
      {
        pages := page + 1;
        if fails(page) {
          return Err(RedisError), pages;
        }
        page := page + 1;
        var items := XPendingExt(pending, start, pageSize);
        PageIsNext(pending, start, k, pageSize);
        if |items| == 0 {
          break;
        }
        ids := SelectFromPage(ids, items, minIdle, count, pending[..k]);
        k := k + |items|;
        if |items| < pageSize {
          break;
        }
        start := Above(items[|items| - 1].id);
      }
      SelectionDone(pending, k, minIdle, count);
      return Ok(ids), pages;
    }

    /** ClaimStale takes over exactly the first count entries that have been idle for long enough, for every list and
        page size. */
    method ClaimStale(consumer: string, minIdle: nat, count: int, fails: nat -> bool,
        claimFails: bool) returns (r: Result<seq<Delivery>>)
      requires Valid()
      modifies this
      ensures Valid() && entries == old(entries)
      ensures Blank(consumer) ==> r == Err(ConsumerRequired)
      ensures !Blank(consumer) && count <= 0 ==> r == Err(CountNotPositive)
      ensures r.Err? ==> pending == old(pending)
      ensures r == Err(RedisError) ==>
                (claimFails && FirstStale(old(pending), minIdle, count) != []) || exists p :: fails(p)
      ensures claimFails && !Blank(consumer) && count > 0 && FirstStale(old(pending), minIdle, count) != [] ==>
                r == Err(RedisError)
      ensures (forall p: nat :: fails(p)) && !Blank(consumer) && count > 0 ==> r == Err(RedisError)
      ensures r.Ok? ==> count > 0 && pending == XClaim(old(pending), consumer, minIdle,
                                                       FirstStale(old(pending), minIdle, count))
      ensures r.Ok? ==> r.value == Deliveries(codec, entries, FirstStale(old(pending), minIdle, count))
    {
      hide Range, XPendingExt, FirstStale, Ascending;
      if TrimSpace(consumer) == "" {
        return Err(ConsumerRequired);
      }
      if count <= 0 {
        return Err(CountNotPositive);
      }
      var selected, pages := SelectStale(minIdle, count, fails);
      if selected.Err? {
        return Err(selected.error);
      }
      var ids := selected.value;
      ClaimKeepsOrder(pending, consumer, minIdle, ids);
      if |ids| == 0 {
        return Ok([]);
      }
      if claimFails {
        return Err(RedisError);
      }
      pending := XClaim(pending, consumer, minIdle, ids);
      var messages: seq<Delivery> := [];
      for i := 0 to |ids|
        invariant messages == Deliveries(codec, entries, ids[..i])
      {
        assert ids[..i + 1][..i] == ids[..i];
        if ids[i] in entries {
          messages := messages + [ParseMessage(codec, Raw(ids[i], entries[ids[i]]))];
        }
      }
      assert ids[..|ids|] == ids;
      return Ok(messages);
    }
  }

  lemma {:induction false} ClaimKeepsOrder(pending: seq<Pending>, consumer: string, minIdle: nat, ids: seq<nat>)
    requires Ascending(pending)
    ensures Ascending(XClaim(pending, consumer, minIdle, ids)) && |XClaim(pending, consumer, minIdle, ids)| == |pending|
    ensures forall i :: 0 <= i < |pending| ==> XClaim(pending, consumer, minIdle, ids)[i].id == pending[i].id
    ensures ids == [] ==> XClaim(pending, consumer, minIdle, ids) == pending
  {
  }

  /** The inner loop over one page. */
  method SelectFromPage(before: seq<nat>, items: seq<Pending>, minIdle: nat, count: nat,
      ghost scanned: seq<Pending>) returns (ids: seq<nat>)
    requires before == FirstStale(scanned, minIdle, count) && |before| < count
    ensures ids == FirstStale(scanned + items, minIdle, count)
  {
    ids := before;
    assert scanned + items[..0] == scanned;
    for i := 0 to |items|
      invariant |ids| < count && ids == FirstStale(scanned + items[..i], minIdle, count)
    {
      StaleSnoc(scanned, items, i, minIdle);
      if items[i].idle >= minIdle {
        ids := ids + [items[i].id];
        if |ids| == count {
          assert (scanned + items)[..|scanned| + i + 1] == scanned + items[..i + 1];
          FullPrefix(scanned + items, |scanned| + i + 1, minIdle, count);
          return;
        }
      }
    }
    assert items[..|items|] == items;
  }

  lemma {:induction false} StaleSnoc(scanned: seq<Pending>, items: seq<Pending>, i: nat, minIdle: nat)
    requires i < |items|
    ensures Stale(scanned + items[..i + 1], minIdle)
         == Stale(scanned + items[..i], minIdle) + if items[i].idle >= minIdle then [items[i].id] else []
  {
    var all := scanned + items[..i + 1];
    assert all[..|all| - 1] == scanned + items[..i];
  }
}
