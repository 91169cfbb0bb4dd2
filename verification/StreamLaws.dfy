/** The wire format of a job message, field by field, and which entries a worker takes over. */
module StreamLaws {
  import opened Optional
  import opened Text
  import opened RedisDocumentQueue

  // Numbers ------------------------------------------------------------------------------------------------------

  /** Decimal digits without a leading zero. */
  lemma {:induction false} ItoaExactly(n: nat, d: nat)
    requires d < 10
    ensures Itoa(d) == ["0123456789"[d]]
    ensures n > 0 ==> Itoa(10 * n + d) == Itoa(n) + ["0123456789"[d]]
  {
    var digits := "0123456789";
    assert DigitChar(d) == digits[d];
  }

  lemma {:induction false} DigitsAreTen()
    ensures forall c :: IsDigit(c) ==> c in "0123456789"
  {
    var digits := "0123456789";
    forall c | IsDigit(c) ensures c in digits {
      assert c == digits[c as int - '0' as int];
    }
  }

  /** Digits are read as a decimal number. */
  lemma {:induction false} DigitsExactly(s: string, d: nat, other: char)
    requires d < 10 && other !in "0123456789"
    ensures DigitsValue("") == Some(0)
    ensures DigitsValue(s).Some? ==> DigitsValue(s + ["0123456789"[d]]) == Some(10 * DigitsValue(s).value + d)
    ensures DigitsValue(s).None? ==> DigitsValue(s + ["0123456789"[d]]).None?
    ensures DigitsValue(s + [other]).None?
  {
    var digits := "0123456789";
    assert (s + [digits[d]])[..|s|] == s && (s + [other])[..|s|] == s;
    assert DigitOf(digits[d]) == d;
    assert !IsDigit(other) by { DigitsAreTen(); }
  }

  /** The text is a positive number that fits 64 bits, with or without a plus sign. */
  ghost predicate PositiveNumber(text: string, n: int) {
    && 0 < n <= 0x7FFF_FFFF_FFFF_FFFF
    && exists digits :: (text == digits || text == "+" + digits) && digits != "" && DigitsValue(digits) == Some(n)
  }

  lemma {:induction false} NumberExactly(text: string, n: int)
    requires n > 0
    ensures Atoi(text) == Some(n) <==> PositiveNumber(text, n)
  {
    if Atoi(text) == Some(n) {
      var digits := if text[0] == '+' then text[1..] else text;
      assert text == digits || text == "+" + digits;
    }
    if PositiveNumber(text, n) {
      var digits :| (text == digits || text == "+" + digits) && digits != "" && DigitsValue(digits) == Some(n);
      FirstDigit(digits);
      if text != digits { assert text[1..] == digits; }
    }
  }

  lemma {:induction false} FirstDigit(digits: string)
    requires digits != "" && DigitsValue(digits).Some?
    ensures IsDigit(digits[0])
  {
    if |digits| > 1 { FirstDigit(digits[..|digits| - 1]); }
  }

  // Messages -----------------------------------------------------------------------------------------------------

  /** What Publish puts into the stream: five fields, the creation time and the schema with their defaults. */
  lemma {:induction false} FieldsExactly(codec: Codec, m: Message, now: Time)
    ensures var fields := FieldsOf(codec, Completed(m, now));
            && fields.Keys == {"job_id", "kb_id", "file_id", "created_at", "schema"}
            && fields["job_id"] == m.jobID && fields["kb_id"] == m.kbID && fields["file_id"] == m.fileID
            && fields["created_at"] == codec.format(if m.createdAt == 0 then now else m.createdAt)
            && fields["schema"] == Itoa(if m.schema > 0 then m.schema else 1)
  {
  }

  /** What is read from an entry: the message, when it names a job and its time and schema can be read; its id alone, as
      poison, otherwise. A field that is missing reads as empty. */
  lemma {:induction false} ParseExactly(codec: Codec, raw: Raw)
    ensures var job := if "job_id" in raw.values then raw.values["job_id"] else "";
            var time := codec.parse(if "created_at" in raw.values then raw.values["created_at"] else "");
            var schema := if "schema" in raw.values then raw.values["schema"] else "";
            if job != "" && time.Some? && exists n :: PositiveNumber(schema, n) then
              var d := ParseMessage(codec, raw);
              && d.Good? && d.message.id == raw.id && d.message.jobID == job && Some(d.message.createdAt) == time
              && PositiveNumber(schema, d.message.schema)
              && d.message.kbID == (if "kb_id" in raw.values then raw.values["kb_id"] else "")
              && d.message.fileID == (if "file_id" in raw.values then raw.values["file_id"] else "")
            else ParseMessage(codec, raw) == Poison(raw.id)
  {
    hide Atoi, PositiveNumber;
    var schema := if "schema" in raw.values then raw.values["schema"] else "";
    forall n: int | n > 0 ensures Atoi(schema) == Some(n) <==> PositiveNumber(schema, n) {
      NumberExactly(schema, n);
    }
    OnlyPositive(schema);
  }

  lemma {:induction false} OnlyPositive(text: string)
    ensures forall n :: PositiveNumber(text, n) ==> n > 0
  {
  }

  // Taking over --------------------------------------------------------------------------------------------------

  /** How many of the first i entries have been idle for long enough. */
  function StaleAmong(pending: seq<Pending>, minIdle: nat, i: nat): nat
    requires i <= |pending|
  {
    if i == 0 then 0 else StaleAmong(pending, minIdle, i - 1) + if pending[i - 1].idle >= minIdle then 1 else 0
  }

  predicate IsTaken(pending: seq<Pending>, minIdle: nat, count: nat, i: nat)
    requires i < |pending|
  {
    pending[i].idle >= minIdle && StaleAmong(pending, minIdle, i) < count
  }

  /** The ids of the entries that are taken, in the order of the list. */
  function TakenAmong(pending: seq<Pending>, minIdle: nat, count: nat, i: nat): seq<nat>
    requires i <= |pending|
  {
    if i == 0 then []
    else TakenAmong(pending, minIdle, count, i - 1)
         + if IsTaken(pending, minIdle, count, i - 1) then [pending[i - 1].id] else []
  }

  /** The entries selected are those that have been idle for long enough and have fewer than count such entries before
      them. */
  lemma {:induction false} SelectedExactly(pending: seq<Pending>, minIdle: nat, count: nat)
    ensures FirstStale(pending, minIdle, count) == TakenAmong(pending, minIdle, count, |pending|)
  {
    assert pending[..|pending|] == pending;
    SelectedAmong(pending, minIdle, count, |pending|);
  }

  lemma {:induction false} SelectedAmong(pending: seq<Pending>, minIdle: nat, count: nat, i: nat)
    requires i <= |pending|
    ensures FirstStale(pending[..i], minIdle, count) == TakenAmong(pending, minIdle, count, i)
    ensures |Stale(pending[..i], minIdle)| == StaleAmong(pending, minIdle, i)
  {
    if i > 0 {
      SelectedAmong(pending, minIdle, count, i - 1);
      assert pending[..i][..i - 1] == pending[..i - 1];
    }
  }

  /** Taking over changes the entries taken and no other: they are the consumer's now, and their idle time starts
      again. */
  lemma {:induction false} ClaimExactly(pending: seq<Pending>, consumer: string, minIdle: nat, count: nat, i: nat)
    requires Ascending(pending) && i < |pending|
    ensures var after := XClaim(pending, consumer, minIdle, FirstStale(pending, minIdle, count));
            && |after| == |pending|
            && after[i] == if IsTaken(pending, minIdle, count, i) then Pending(pending[i].id, consumer, 0)
                else pending[i]
  {
    hide IsTaken;
    SelectedExactly(pending, minIdle, count);
    TakenIs(pending, minIdle, count, i, |pending|);
    TakenIsStale(pending, minIdle, count, i);
  }

  lemma {:induction false} TakenIsStale(pending: seq<Pending>, minIdle: nat, count: nat, i: nat)
    requires i < |pending|
    ensures IsTaken(pending, minIdle, count, i) ==> pending[i].idle >= minIdle
  {
  }

  lemma {:induction false} TakenIs(pending: seq<Pending>, minIdle: nat, count: nat, i: nat, n: nat)
    requires Ascending(pending) && i < |pending| && n <= |pending|
    ensures pending[i].id in TakenAmong(pending, minIdle, count, n) <==> i < n && IsTaken(pending, minIdle, count, i)
  {
    hide IsTaken;
    if n > 0 { TakenIs(pending, minIdle, count, i, n - 1); }
  }

  /** Of the entries taken over, those that are still in the stream are read and delivered, in order. */
  lemma {:induction false} DeliveredExactly(codec: Codec, entries: map<nat, map<string, string>>, ids: seq<nat>,
      id: nat)
    ensures Deliveries(codec, entries, []) == []
    ensures id in entries ==>
              Deliveries(codec, entries, ids + [id])
                == Deliveries(codec, entries, ids) + [ParseMessage(codec, Raw(id, entries[id]))]
    ensures id !in entries ==> Deliveries(codec, entries, ids + [id]) == Deliveries(codec, entries, ids)
  {
    assert (ids + [id])[..|ids|] == ids;
  }
}
