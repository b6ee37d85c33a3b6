/**
 * Request validation. A schema validator is abstracted to what it reports: for each
 * of the body, the query and the route parameters, either no schema was supplied,
 * the part passed, or it failed with a list of details (a path and a message).
 * `validateRequest` folds those details into one error record and answers 400 when
 * the record is non-empty. The constraints of the declared schemas that are plain
 * predicates on strings and integers are modelled beside it.
 */
module Validation {
  import opened Wrappers
  import opened Types
  import opened Http
  import opened Users
  import opened AuthController

  datatype Detail = Detail(path: seq<string>, message: string)

  datatype PartCheck = NotSupplied | Passed | Failed(details: seq<Detail>)

  /** `path.join(sep)`. */
  function Join(parts: seq<string>, sep: string): string {
    if parts == [] then ""
    else if |parts| == 1 then parts[0]
    else parts[0] + sep + Join(parts[1..], sep)
  }

  /** The error key of a detail: the prefix, then the path joined with dots. */
  function KeyOf(prefix: string, d: Detail): string {
    prefix + Join(d.path, ".")
  }

  /** The (key, message) writes that the details of one part make, in order. */
  function Keyed(prefix: string, ds: seq<Detail>): (es: seq<(string, string)>)
    ensures |es| == |ds|
    ensures forall i :: 0 <= i < |ds| ==> es[i] == (KeyOf(prefix, ds[i]), ds[i].message)
  {
    if ds == [] then []
    else Keyed(prefix, ds[..|ds| - 1]) + [(KeyOf(prefix, ds[|ds| - 1]), ds[|ds| - 1].message)]
  }

  /** The writes a part makes; a part that passed or was not checked makes none. */
  function Writes(prefix: string, part: PartCheck): seq<(string, string)> {
    if part.Failed? then Keyed(prefix, part.details) else []
  }

  /** All writes in the order `validateRequest` makes them: body, then `query.`, then `params.`. */
  function AllWrites(body: PartCheck, query: PartCheck, params: PartCheck): seq<(string, string)> {
    Writes("", body) + Writes("query.", query) + Writes("params.", params)
  }

  /**
   * The one key a write to a plain object does not store: assigning a string to
   * `__proto__` goes to the prototype setter, which ignores it.
   */
  const ProtoKey := "__proto__"

  /** `record[key] = message` on a plain object. */
  function Store(r: map<string, string>, e: (string, string)): map<string, string> {
    if e.0 == ProtoKey then r else r[e.0 := e.1]
  }

  /** The record after the writes `es`, made one after the other, on `m`. */
  function Record(m: map<string, string>, es: seq<(string, string)>): map<string, string>
  {
    if es == [] then m else Store(Record(m, es[..|es| - 1]), es[|es| - 1])
  }

  /**
   * A key is in the record iff it was there already or some write names it (and
   * it is not `__proto__`), and its value is that of the LAST write naming it: a
   * later detail overwrites an earlier one with the same key.
   */
  lemma {:induction false} RecordLastWins(m: map<string, string>, es: seq<(string, string)>, k: string)
    ensures k in Record(m, es) <==> k in m || (k != ProtoKey && exists i :: 0 <= i < |es| && es[i].0 == k)
    ensures k != ProtoKey ==>
      forall i | 0 <= i < |es| && es[i].0 == k && (forall j | i < j < |es| :: es[j].0 != k) ::
        k in Record(m, es) && Record(m, es)[k] == es[i].1
    ensures (k == ProtoKey || forall i | 0 <= i < |es| :: es[i].0 != k) && k in m ==> Record(m, es)[k] == m[k]
  {
    if es != [] {
      var n := |es| - 1;
      var before := es[..n];
      RecordLastWins(m, before, k);
      assert forall i | 0 <= i < n :: before[i] == es[i];
      assert Record(m, es) == Store(Record(m, before), es[n]);
      if es[n].0 != k || k == ProtoKey {
        assert k in Record(m, es) <==> k in Record(m, before);
        assert k in Record(m, es) ==> Record(m, es)[k] == Record(m, before)[k];
        forall i | 0 <= i < |es| && es[i].0 == k && (forall j | i < j < |es| :: es[j].0 != k) && k != ProtoKey
          ensures k in Record(m, es) && Record(m, es)[k] == es[i].1
        {
          assert i < n;
          assert before[i] == es[i];
        }
      }
    }
  }

  /** The record written from nothing is empty iff every write was to `__proto__` (in particular, iff none was made when no key is `__proto__`). */
  lemma RecordEmptyIffNothingStored(es: seq<(string, string)>)
    ensures |Record(map[], es)| == 0 <==> forall i | 0 <= i < |es| :: es[i].0 == ProtoKey
  {
    if |Record(map[], es)| == 0 {
      forall i | 0 <= i < |es|
        ensures es[i].0 == ProtoKey
      {
        RecordLastWins(map[], es, es[i].0);
      }
    } else {
      var k :| k in Record(map[], es);
      RecordLastWins(map[], es, k);
    }
  }

  /** A lone detail at path `__proto__` leaves the record empty. */
  lemma ProtoDetailIgnored(msg: string)
    ensures Record(map[], AllWrites(Failed([Detail([ProtoKey], msg)]), NotSupplied, NotSupplied)) == map[]
  {
    var d := Detail([ProtoKey], msg);
    assert KeyOf("", d) == ProtoKey;
    assert [d][..0] == [];
    var ws := AllWrites(Failed([d]), NotSupplied, NotSupplied);
    assert ws == [(ProtoKey, msg)];
    assert ws[..0] == [];
  }

  /** Writing the details up to `i + 1` is writing those up to `i`, then detail `i`. */
  lemma KeyedStep(prefix: string, ds: seq<Detail>, i: nat)
    requires i < |ds|
    ensures forall m :: Record(m, Keyed(prefix, ds[..i + 1]))
                        == Store(Record(m, Keyed(prefix, ds[..i])), (KeyOf(prefix, ds[i]), ds[i].message))
  {
    assert ds[..i + 1][..i] == ds[..i];
    var es := Keyed(prefix, ds[..i + 1]);
    assert es == Keyed(prefix, ds[..i]) + [(KeyOf(prefix, ds[i]), ds[i].message)];
    assert es[..|es| - 1] == Keyed(prefix, ds[..i]);
  }

  /** One `error.details.forEach` loop: write each detail's message under its prefixed key. */
  method AddDetails(errors: map<string, string>, prefix: string, part: PartCheck) returns (result: map<string, string>)
    ensures result == Record(errors, Writes(prefix, part))
  {
    result := errors;
    if part.Failed? {
      var ds := part.details;
      for i := 0 to |ds|
        invariant result == Record(errors, Keyed(prefix, ds[..i]))
      {
        KeyedStep(prefix, ds, i);
        var key := KeyOf(prefix, ds[i]);
        if key != ProtoKey {
          result := result[key := ds[i].message];
        }
        assert result == Store(Record(errors, Keyed(prefix, ds[..i])), (key, ds[i].message));
      }
      assert ds[..|ds|] == ds;
    }
  }

  /** Record on the concatenation of writes is record of the first writes then of the rest. */
  lemma {:induction false} RecordAppend(m: map<string, string>, a: seq<(string, string)>, b: seq<(string, string)>)
    ensures Record(m, a + b) == Record(Record(m, a), b)
  {
    if b != [] {
      var n := |b| - 1;
      assert (a + b)[..|a + b| - 1] == a + b[..n];
      RecordAppend(m, a, b[..n]);
    } else {
      assert a + b == a;
    }
  }

  /**
   * `validateRequest`: the record collects every write of the three parts in order
   * (so a later detail with the same key wins), and the request is answered 400
   * "Validation failed" with that record iff the record is non-empty, that is iff
   * some detail was written under a key other than `__proto__`; otherwise `next`
   * is called.
   */
  method ValidateRequest(body: PartCheck, query: PartCheck, params: PartCheck) returns (out: Outcome)
    ensures var errors := Record(map[], AllWrites(body, query, params));
      out == if |errors| > 0 then Halt(Response(400, false, "Validation failed", Errors(errors))) else Next
    ensures var ws := AllWrites(body, query, params);
      out == Next <==> forall i | 0 <= i < |ws| :: ws[i].0 == ProtoKey
  {
    var errors: map<string, string> := map[];
    errors := AddDetails(errors, "", body);
    errors := AddDetails(errors, "query.", query);
    errors := AddDetails(errors, "params.", params);
    RecordAppend(map[], Writes("", body), Writes("query.", query));
    RecordAppend(map[], Writes("", body) + Writes("query.", query), Writes("params.", params));
    RecordEmptyIffNothingStored(AllWrites(body, query, params));
    if |errors| > 0 {
      out := Halt(Response(400, false, "Validation failed", Errors(errors)));
    } else {
      out := Next;
    }
  }

  /** A query or params key never collides with a body key that does not start with that prefix. */
  lemma PrefixedKeysDiffer(d: Detail, e: Detail)
    requires |Join(d.path, ".")| < 6 || Join(d.path, ".")[..6] != "query."
    ensures KeyOf("", d) != KeyOf("query.", e)
  {
    var q := KeyOf("query.", e);
    assert |q| >= 6 && q[..6] == "query.";
    assert KeyOf("", d) == Join(d.path, ".");
  }

  // ---- Constraints of the declared schemas ----

  predicate IsDigit(c: char) {
    '0' <= c <= '9'
  }

  function DigitValue(c: char): nat
    requires IsDigit(c)
  {
    c as int - '0' as int
  }

  /** The decimal value of a string of digits. */
  function Number(ds: string): nat
    requires forall i :: 0 <= i < |ds| ==> IsDigit(ds[i])
  {
    if ds == [] then 0 else 10 * Number(ds[..|ds| - 1]) + DigitValue(ds[|ds| - 1])
  }

  lemma NumberOfOne(d: string)
    requires |d| == 1 && IsDigit(d[0])
    ensures Number(d) == DigitValue(d[0])
  {
    assert d[..0] == [];
  }

  lemma NumberOfTwo(d: string)
    requires |d| == 2 && IsDigit(d[0]) && IsDigit(d[1])
    ensures Number(d) == 10 * DigitValue(d[0]) + DigitValue(d[1])
  {
    NumberOfOne(d[..1]);
  }

  /** The hour group of the `startTime` pattern: `[0-1]?[0-9]` or `2[0-3]`. */
  predicate HourGroup(h: string) {
    || (|h| == 1 && IsDigit(h[0]))
    || (|h| == 2 && '0' <= h[0] <= '1' && IsDigit(h[1]))
    || (|h| == 2 && h[0] == '2' && '0' <= h[1] <= '3')
  }

  /** The minute group of the `startTime` pattern: `[0-5][0-9]`. */
  predicate MinuteGroup(m: string) {
    |m| == 2 && '0' <= m[0] <= '5' && IsDigit(m[1])
  }

  /** The `startTime` pattern `^([0-1]?[0-9]|2[0-3]):[0-5][0-9]$`, read group by group. */
  predicate StartTimePattern(s: string) {
    |s| >= 3 && s[|s| - 3] == ':' && HourGroup(s[..|s| - 3]) && MinuteGroup(s[|s| - 2..])
  }

  /** A clock time written H:MM or HH:MM: hour 0 to 23, minute 00 to 59. */
  predicate ClockTime(s: string) {
    && (|s| == 4 || |s| == 5)
    && s[|s| - 3] == ':'
    && (forall i :: 0 <= i < |s| && i != |s| - 3 ==> IsDigit(s[i]))
    && Number(s[..|s| - 3]) <= 23
    && Number(s[|s| - 2..]) <= 59
  }

  /** The pattern accepts exactly the clock times. */
  lemma StartTimePatternIsClockTime(s: string)
    ensures StartTimePattern(s) <==> ClockTime(s)
  {
    if |s| == 4 || |s| == 5 {
      var h, m := s[..|s| - 3], s[|s| - 2..];
      if forall i :: 0 <= i < |s| && i != |s| - 3 ==> IsDigit(s[i]) {
        assert forall i :: 0 <= i < |h| ==> h[i] == s[i];
        assert m[0] == s[|s| - 2] && m[1] == s[|s| - 1];
        NumberOfTwo(m);
        if |h| == 1 {
          NumberOfOne(h);
        } else {
          NumberOfTwo(h);
        }
      }
    }
  }

  /** The `duration` bounds of the appointment schema, in minutes (fractions allowed). */
  predicate DurationAccepted(minutes: real) {
    15.0 <= minutes <= 480.0
  }

  /** The timing fields of the appointment schema. */
  predicate AppointmentTimingAccepted(startTime: string, duration: real) {
    StartTimePattern(startTime) && DurationAccepted(duration)
  }

  /** An accepted appointment starts at a clock time and lasts a quarter hour to eight hours. */
  lemma AppointmentTiming(startTime: string, duration: real)
    ensures AppointmentTimingAccepted(startTime, duration) <==> ClockTime(startTime) && 15.0 <= duration <= 8.0 * 60.0
  {
    StartTimePatternIsClockTime(startTime);
  }

  /** The pagination query as received. */
  datatype PageQuery = PageQuery(page: Option<int>, limit: Option<int>, sort: Option<string>, order: Option<string>, search: Option<string>)

  /** The pagination query after validation and defaults. */
  datatype Page = Page(page: int, limit: int, sort: Option<string>, order: string, search: Option<string>)

  /** `Number.MAX_SAFE_INTEGER`: a larger number fails the schema's number check. */
  const MaxSafeInteger: int := 0x1F_FFFF_FFFF_FFFF

  /** A supplied string field: the schema's strings must be non-empty. */
  predicate NonEmpty(s: Option<string>) {
    s.None? || |s.value| > 0
  }

  /** The UTF-16 code units of one character: two for a character beyond U+FFFF. */
  function Units(c: char): nat {
    if c as int > 0xFFFF then 2 else 1
  }

  /**
   * A string's JavaScript `length`, which the schema's `min` and `max` bound: the
   * count of its UTF-16 code units, not of its characters.
   */
  function Utf16Len(s: string): (n: nat)
    ensures |s| <= n <= 2 * |s|
    ensures n == |s| <==> forall i :: 0 <= i < |s| ==> s[i] as int <= 0xFFFF
    ensures n == 2 * |s| <==> forall i :: 0 <= i < |s| ==> s[i] as int > 0xFFFF
  {
    if |s| == 0 then 0 else Units(s[0]) + Utf16Len(s[1..])
  }

  /** The length of a concatenation is the sum of the lengths. */
  lemma {:induction false} Utf16LenAppend(s: string, t: string)
    ensures Utf16Len(s + t) == Utf16Len(s) + Utf16Len(t)
  {
    if |s| == 0 {
      assert s + t == t;
    } else {
      assert (s + t)[0] == s[0];
      assert (s + t)[1..] == s[1..] + t;
      Utf16LenAppend(s[1..], t);
    }
  }

  /**
   * The pagination schema over the five declared query keys, each given at most
   * once: `page` at least 1 (default 1) and a safe integer,
   * `limit` 1 to 100 (default 10), `sort` a non-empty string, `order` "asc" or
   * "desc" (default "desc"), `search` 1 to 100 UTF-16 code units; `None` when a
   * constraint fails.
   */
  function Paginate(q: PageQuery): (r: Option<Page>)
    ensures r.Some? <==>
      && (q.page.None? || 1 <= q.page.value <= MaxSafeInteger)
      && (q.limit.None? || 1 <= q.limit.value <= 100)
      && NonEmpty(q.sort)
      && (q.order.None? || q.order.value in {"asc", "desc"})
      && (q.search.None? || 1 <= Utf16Len(q.search.value) <= 100)
    ensures r.Some? ==>
      && 1 <= r.value.page && 1 <= r.value.limit <= 100 && r.value.order in {"asc", "desc"}
      && (q.page.None? ==> r.value.page == 1) && (q.page.Some? ==> r.value.page == q.page.value)
      && (q.limit.None? ==> r.value.limit == 10) && (q.limit.Some? ==> r.value.limit == q.limit.value)
      && (q.order.None? ==> r.value.order == "desc") && (q.order.Some? ==> r.value.order == q.order.value)
      && r.value.sort == q.sort && r.value.search == q.search
  {
    var page := q.page.GetOr(1);
    var limit := q.limit.GetOr(10);
    var order := q.order.GetOr("desc");
    if 1 <= page <= MaxSafeInteger && 1 <= limit <= 100 && NonEmpty(q.sort) && (order == "asc" || order == "desc")
       && NonEmpty(q.search) && (q.search.None? || Utf16Len(q.search.value) <= 100)
    then Some(Page(page, limit, q.sort, order, q.search))
    else None
  }

  /** An empty `search` or `sort` is refused, and so is a page beyond the safe integers. */
  lemma PaginateRefuses(q: PageQuery)
    requires q.search == Some("") || q.sort == Some("") || (q.page.Some? && q.page.value > MaxSafeInteger)
    ensures Paginate(q).None?
  {
  }

  /**
   * JavaScript's `\s`: the ASCII controls tab to carriage return, the space, and
   * the Unicode space separators, line and paragraph separators and the byte
   * order mark.
   */
  predicate JsSpace(c: char) {
    var k := c as int;
    || 0x09 <= k <= 0x0D || k == 0x20 || k == 0xA0 || k == 0x1680
    || 0x2000 <= k <= 0x200A || k == 0x2028 || k == 0x2029 || k == 0x202F
    || k == 0x205F || k == 0x3000 || k == 0xFEFF
  }

  /** The phone pattern `^\+?[\d\s\-\(\)]+$`. */
  predicate PhoneChar(c: char) {
    IsDigit(c) || JsSpace(c) || c == '-' || c == '(' || c == ')'
  }

  predicate PhonePattern(s: string) {
    var rest := if |s| > 0 && s[0] == '+' then s[1..] else s;
    |rest| > 0 && forall i :: 0 <= i < |rest| ==> PhoneChar(rest[i])
  }

  /**
   * The register schema over the body's declared fields, except the email format
   * and the date-of-birth bound: email, password, both names and the role are
   * required. An accepted body holds every field the insert needs, names one of the
   * four roles and has a gender the table admits.
   */
  predicate RegisterBodyAccepted(b: RegisterBody): (ok: bool)
    ensures ok ==> Complete(b) && b.role.Some? && ParseRole(b.role.value).Some? && GenderAllowed(b.gender)
  {
    && b.email.Some?
    && b.password.Some? && Utf16Len(b.password.value) >= 6
    && b.firstName.Some? && 1 <= Utf16Len(b.firstName.value) <= 50
    && b.lastName.Some? && 1 <= Utf16Len(b.lastName.value) <= 50
    && b.role.Some? && b.role.value in {"patient", "doctor", "nurse", "admin"}
    && (b.phone.None? || PhonePattern(b.phone.value))
    && (b.gender.None? || b.gender.value in {"male", "female", "other"})
    && (b.address.None? || 1 <= Utf16Len(b.address.value) <= 255)
  }

  /** Three characters beyond U+FFFF make a password of six code units. */
  lemma AstralPasswordLength(password: string)
    requires password == "\U{1F600}\U{1F600}\U{1F600}"
    ensures Utf16Len(password) == 6
  {
    assert forall i :: 0 <= i < |password| ==> password[i] as int > 0xFFFF;
  }

  /** A no-break space may separate phone digits. */
  lemma NoBreakSpacePhone(phone: string)
    requires phone == "+1\U{00A0}555"
    ensures PhonePattern(phone)
  {
    var rest := phone[1..];
    assert rest == "1\U{00A0}555";
    assert forall i :: 0 <= i < |rest| ==> PhoneChar(rest[i]);
  }

  /** Sixty characters beyond U+FFFF are too long a search. */
  lemma AstralSearchTooLong(q: PageQuery)
    requires q.search.Some? && |q.search.value| == 60
    requires forall i :: 0 <= i < 60 ==> q.search.value[i] == '\U{1F600}'
    ensures Paginate(q).None?
  {
    assert Utf16Len(q.search.value) == 120;
  }

  /**
   * The row `register` inserts for an accepted body meets every per-row constraint
   * of the table: lower-case email, an admitted gender, no reset token and no
   * expiry. So only a taken email or an id collision can stop the insert.
   */
  lemma AcceptedRegisterBodyFitsTable(hash: string -> Digest, b: RegisterBody, now: nat)
    requires RegisterBodyAccepted(b)
    ensures Complete(b) && b.role.Some? && ParseRole(b.role.value).Some?
    ensures var row := NewRow(hash, b, ParseRole(b.role.value).value, now);
      && IsLower(row.email) && GenderAllowed(row.profile.gender)
      && (row.passwordResetToken.Some? <==> row.passwordResetExpires.Some?)
      && row.password == hash(b.password.value) && row.isActive
  {
    LowerIsLower(b.email.value);
  }
}
