/**
 The bytes that an audit digest is taken of. Strings stand for their UTF-8 bytes, one character each,
 and are arbitrary: they may hold digits and colons.
 */
module CallbackAudit {
  import opened Options

  datatype Kind =
    | PolicyReconciled | ConfigCreated | ConfigDeleted | EventEnqueued
    | DeliveryAttempted | Delivered | RetryScheduled | Dead

  function AsStr(k: Kind): string {
    match k
    case PolicyReconciled => "callback_policy_reconciled"
    case ConfigCreated => "callback_config_created"
    case ConfigDeleted => "callback_config_deleted"
    case EventEnqueued => "callback_event_enqueued"
    case DeliveryAttempted => "callback_delivery_attempted"
    case Delivered => "callback_delivered"
    case RetryScheduled => "callback_retry_scheduled"
    case Dead => "callback_dead"
  }

  function Parse(s: string): Option<Kind> {
    if s == "callback_policy_reconciled" then Some(PolicyReconciled)
    else if s == "callback_config_created" then Some(ConfigCreated)
    else if s == "callback_config_deleted" then Some(ConfigDeleted)
    else if s == "callback_event_enqueued" then Some(EventEnqueued)
    else if s == "callback_delivery_attempted" then Some(DeliveryAttempted)
    else if s == "callback_delivered" then Some(Delivered)
    else if s == "callback_retry_scheduled" then Some(RetryScheduled)
    else if s == "callback_dead" then Some(Dead)
    else None
  }

  lemma ParseReadsBack(k: Kind)
    ensures Parse(AsStr(k)) == Some(k)
    ensures forall s :: Parse(s) == Some(k) <==> s == AsStr(k)
  {
    var created, deleted, enqueued := AsStr(ConfigCreated), AsStr(ConfigDeleted), AsStr(EventEnqueued);
    assert created[9] != enqueued[9] && deleted[9] != enqueued[9] && created[16] != deleted[16];
  }

  // ----- Decimal numbers -----

  function Digit(d: int): char
    requires 0 <= d < 10
  {
    ['0', '1', '2', '3', '4', '5', '6', '7', '8', '9'][d]
  }

  function Decimal(n: nat): string {
    if n < 10 then [Digit(n)] else Decimal(n / 10) + [Digit(n % 10)]
  }

  function Signed(i: int): string { if i < 0 then ['-'] + Decimal(-i) else Decimal(i) }

  predicate IsDigit(c: char) { '0' <= c <= '9' }

  lemma {:induction false} DecimalIsDigits(n: nat)
    ensures |Decimal(n)| > 0 && forall i | 0 <= i < |Decimal(n)| :: IsDigit(Decimal(n)[i])
  {
    if n >= 10 { DecimalIsDigits(n / 10); }
  }

  // The number that a string of digits is read as.
  function Number(s: string): int {
    if s == "" then 0 else 10 * Number(s[..|s| - 1]) + (s[|s| - 1] as int - '0' as int)
  }

  /** A decimal is read as its number, and has no leading zero but that of zero. */
  lemma {:induction false} DecimalReads(n: nat)
    ensures Number(Decimal(n)) == n && (Decimal(n)[0] == '0' <==> n == 0)
  {
    if n >= 10 {
      DecimalReads(n / 10);
      var s := Decimal(n);
      assert s[..|s| - 1] == Decimal(n / 10) && s[|s| - 1] == Digit(n % 10);
      DecimalIsDigits(n / 10);
    } else {
      assert Decimal(n)[..0] == "" && Number("") == 0;
    }
  }

  lemma DigitIsInjective(d: int, e: int)
    requires 0 <= d < 10 && 0 <= e < 10 && Digit(d) == Digit(e)
    ensures d == e
  {
  }

  lemma {:induction false} DecimalIsInjective(a: nat, b: nat)
    requires Decimal(a) == Decimal(b)
    ensures a == b
  {
    DecimalIsDigits(a / 10);
    DecimalIsDigits(b / 10);
    var x, y := Decimal(a), Decimal(b);
    assert x[|x| - 1] == Digit(a % 10) && y[|y| - 1] == Digit(b % 10);
    DigitIsInjective(a % 10, b % 10);
    if a >= 10 && b >= 10 {
      assert x[..|x| - 1] == Decimal(a / 10) && y[..|y| - 1] == Decimal(b / 10);
      DecimalIsInjective(a / 10, b / 10);
    }
  }

  lemma SignedIsInjective(a: int, b: int)
    requires Signed(a) == Signed(b)
    ensures a == b
  {
    if a >= 0 { DecimalIsDigits(a); }
    if b >= 0 { DecimalIsDigits(b); }
    assert (Signed(a)[0] == '-' <==> a < 0) && (Signed(b)[0] == '-' <==> b < 0);
    if a < 0 {
      var x, y := Decimal(-a), Decimal(-b);
      assert x == (['-'] + x)[1..] && y == (['-'] + y)[1..];
      DecimalIsInjective(-a, -b);
    } else {
      DecimalIsInjective(a, b);
    }
  }

  // ----- Fields -----

  function Field(s: string): string { Decimal(|s|) + [':'] + s }

  function Fields(values: seq<string>): string {
    if values == [] then "" else Fields(values[..|values| - 1]) + Field(values[|values| - 1])
  }

  // The first colon ends the length.
  lemma SameLengths(a: string, x: string, b: string, y: string)
    requires Field(a) + x == Field(b) + y
    ensures |Decimal(|a|)| <= |Decimal(|b|)|
  {
    DecimalIsDigits(|a|);
    var s, digits := Field(a) + x, Decimal(|a|);
    assert forall i | 0 <= i < |digits| :: s[i] == digits[i];
    assert s[|Decimal(|b|)|] == ':';
  }

  /** A field in front of anything can be told apart from it. */
  lemma FieldSplits(a: string, x: string, b: string, y: string)
    requires Field(a) + x == Field(b) + y
    ensures a == b && x == y
  {
    SameLengths(a, x, b, y);
    SameLengths(b, y, a, x);
    var n := |Decimal(|a|)|;
    assert Decimal(|a|) == (Field(a) + x)[..n] && Decimal(|b|) == (Field(b) + y)[..n];
    DecimalIsInjective(|a|, |b|);
    assert a == (Field(a) + x)[n + 1..n + 1 + |a|] && b == (Field(b) + y)[n + 1..n + 1 + |b|];
    assert x == (Field(a) + x)[n + 1 + |a|..] && y == (Field(b) + y)[n + 1 + |b|..];
  }

  lemma Regroup(x: string, y: string, z: string)
    ensures (x + y) + z == x + (y + z)
  {
  }

  lemma {:induction false} FieldsJoin(a: seq<string>, b: seq<string>)
    ensures Fields(a) + Fields(b) == Fields(a + b)
    decreases |b|
  {
    if b == [] {
      assert a + b == a && Fields(b) == "";
    } else {
      var n := |b| - 1;
      FieldsJoin(a, b[..n]);
      var all, last := a + b, Field(b[n]);
      assert all[..|all| - 1] == a + b[..n] && all[|all| - 1] == b[n];
      assert Fields(all) == Fields(a + b[..n]) + last && Fields(b) == Fields(b[..n]) + last;
      Regroup(Fields(a), Fields(b[..n]), last);
    }
  }

  lemma FieldsPrepend(values: seq<string>)
    requires values != []
    ensures Fields(values) == Field(values[0]) + Fields(values[1..])
  {
    assert [values[0]][..0] == [] && Fields([]) == "" && "" + Field(values[0]) == Field(values[0]);
    FieldsJoin([values[0]], values[1..]);
    assert [values[0]] + values[1..] == values;
  }

  /** Two lists of the same number of fields have the same encoding only if they are the same list. */
  lemma {:induction false} FieldsAreInjective(a: seq<string>, b: seq<string>)
    requires |a| == |b| && Fields(a) == Fields(b)
    ensures a == b
  {
    if a != [] {
      FieldsPrepend(a);
      FieldsPrepend(b);
      FieldSplits(a[0], Fields(a[1..]), b[0], Fields(b[1..]));
      FieldsAreInjective(a[1..], b[1..]);
      assert a == [a[0]] + a[1..] && b == [b[0]] + b[1..];
    }
  }

  // ----- The audit -----

  datatype Audit = Audit(kind: Kind, tenant: string, task: string, config: string, event: string, revision: int,
                         attempt: int)

  const DOMAIN := "smesh-callback-audit/v1"

  function Texts(a: Audit): seq<string> { [AsStr(a.kind), a.tenant, a.task, a.config, a.event] }

  function Numbers(a: Audit): seq<int> { [a.revision, a.attempt] }

  function Values(a: Audit): seq<string> { Texts(a) + AllSigned(Numbers(a)) }

  function Preimage(a: Audit): string { DOMAIN + Fields(Values(a)) }

  method Extend(material: string, value: string) returns (longer: string)
    ensures longer == material + Field(value)
  {
    longer := material + Decimal(|value|);
    longer := longer + [':'];
    longer := longer + value;
  }

  lemma FieldsGrow(values: seq<string>, i: nat)
    requires i < |values|
    ensures Fields(values[..i + 1]) == Fields(values[..i]) + Field(values[i])
  {
    assert values[..i + 1][..i] == values[..i];
  }

  method ExtendAll(material: string, values: seq<string>) returns (longer: string)
    ensures longer == material + Fields(values)
  {
    longer := material;
    var i := 0;
    while i < |values|
      invariant 0 <= i <= |values| && longer == material + Fields(values[..i])
    {
      FieldsGrow(values, i);
      Regroup(material, Fields(values[..i]), Field(values[i]));
      longer := Extend(longer, values[i]);
      i := i + 1;
    }
    assert values[..i] == values;
  }

  function AllSigned(numbers: seq<int>): seq<string> {
    seq(|numbers|, i requires 0 <= i < |numbers| => Signed(numbers[i]))
  }

  method ExtendSigned(material: string, numbers: seq<int>) returns (longer: string)
    ensures longer == material + Fields(AllSigned(numbers))
  {
    longer := material;
    ghost var values := AllSigned(numbers);
    var i := 0;
    while i < |numbers|
      invariant 0 <= i <= |numbers| && longer == material + Fields(values[..i])
    {
      FieldsGrow(values, i);
      Regroup(material, Fields(values[..i]), Field(values[i]));
      longer := Extend(longer, Signed(numbers[i]));
      i := i + 1;
    }
    assert values[..i] == values;
  }

  method AuditMaterial(a: Audit) returns (material: string)
    ensures material == Preimage(a)
  {
    material := ExtendAll(DOMAIN, Texts(a));
    material := ExtendSigned(material, Numbers(a));
    FieldsJoin(Texts(a), AllSigned(Numbers(a)));
  }

  /** The preimage is the domain, then the kind, tenant, task, configuration, event, revision and attempt, each with
      its length in front. */
  lemma PreimageSpells(a: Audit)
    ensures Preimage(a) == DOMAIN + (Field(AsStr(a.kind)) + (Field(a.tenant) + (Field(a.task) + (Field(a.config) +
                           (Field(a.event) + (Field(Signed(a.revision)) + Field(Signed(a.attempt))))))))
  {
    var v := Values(a);
    FieldsPrepend(v);
    FieldsPrepend(v[1..]);
    FieldsPrepend(v[2..]);
    FieldsPrepend(v[3..]);
    FieldsPrepend(v[4..]);
    FieldsPrepend(v[5..]);
    FieldsPrepend(v[6..]);
    assert v[1..][1..] == v[2..] && v[2..][1..] == v[3..] && v[3..][1..] == v[4..] && v[4..][1..] == v[5..] &&
           v[5..][1..] == v[6..] && v[6..][1..] == [];
    assert Fields([]) == "" && Field(Signed(a.attempt)) + "" == Field(Signed(a.attempt));
  }

  /** The audit preimage is uniquely decodable. */
  lemma PreimageIsInjective(a: Audit, b: Audit)
    ensures Preimage(a) == Preimage(b) <==> a == b
  {
    if Preimage(a) == Preimage(b) {
      assert Preimage(a)[|DOMAIN|..] == Fields(Values(a)) && Preimage(b)[|DOMAIN|..] == Fields(Values(b));
      var x, y := Values(a), Values(b);
      FieldsAreInjective(x, y);
      assert x[0] == y[0] && x[1] == y[1] && x[2] == y[2] && x[3] == y[3] && x[4] == y[4] && x[5] == y[5] &&
             x[6] == y[6];
      ParseReadsBack(a.kind);
      ParseReadsBack(b.kind);
      SignedIsInjective(a.revision, b.revision);
      SignedIsInjective(a.attempt, b.attempt);
    }
  }
}
