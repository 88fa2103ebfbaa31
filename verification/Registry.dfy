/** The relay's registry, src/remoteinput/registry.py: target names and the table of registered targets.
    The database is an atomic table; secrets are numbers, digests and password hashes being injective. */
module Registry {
  import opened Sequences

  // ---- Names ----

  const PREFIX: string := "TARGET-"
  const DIGITS: string := "0123456789"
  const MAX_DIGITS: nat := 12

  function Digits(n: nat): (s: string)
    ensures s != [] && AllDigits(s)
  {
    if n < 10 then [DIGITS[n]] else Digits(n / 10) + [DIGITS[n % 10]]
  }

  predicate AllDigits(s: string) { forall i :: 0 <= i < |s| ==> s[i] in DIGITS }

  function Padded(s: string, width: nat): string
    decreases width - |s|
  {
    if |s| < width then Padded("0" + s, width) else s
  }

  /** f"TARGET-{number:03d}". */
  function Name(n: nat): string { PREFIX + Padded(Digits(n), 3) }

  function Digit(c: char): nat
    requires c in DIGITS
  {
    c as nat - '0' as nat
  }

  function Value(s: string): nat
    requires AllDigits(s)
  {
    if s == [] then 0 else 10 * Value(Front(s)) + Digit(Last(s))
  }

  /** The number a name stands for, or -1; up to twelve digits, however many of them are leading zeros. */
  function Number(name: string): int {
    if !(PREFIX <= name) then -1
    else
      var tail := name[7..];
      if tail != [] && AllDigits(tail) && |tail| <= MAX_DIGITS then Value(tail) else -1
  }

  /** A name as the relay itself writes it. */
  predicate Canonical(name: string) {
    Number(name) >= 0 && name == Name(Number(name))
  }

  function Pow10(w: nat): nat { if w == 0 then 1 else 10 * Pow10(w - 1) }

  lemma {:induction false} ValueOfDigits(n: nat)
    ensures Value(Digits(n)) == n
    ensures forall w: nat :: w > 0 ==> (|Digits(n)| <= w <==> n < Pow10(w))
  {
    if n < 10 {
      assert Front(Digits(n)) == [];
      forall w: nat | w > 0 ensures n < Pow10(w) { Pow10Positive(w - 1); }
    } else {
      ValueOfDigits(n / 10);
      assert Front(Digits(n)) == Digits(n / 10);
      forall w: nat | w > 0 ensures |Digits(n)| <= w <==> n < Pow10(w) {
        if w > 1 {
          assert |Digits(n / 10)| <= w - 1 <==> n / 10 < Pow10(w - 1);
        } else {
          assert Pow10(1) == 10 * Pow10(0);
        }
      }
    }
  }

  lemma {:induction false} Pow10Positive(w: nat)
    ensures Pow10(w) >= 1
  {
    if w != 0 { Pow10Positive(w - 1); }
  }

  lemma {:induction false} ValueOfZero(s: string)
    requires AllDigits(s)
    ensures AllDigits("0" + s) && Value("0" + s) == Value(s)
  {
    if s == [] {
      assert Front("0" + s) == [] && Last("0" + s) == '0';
    } else {
      assert Front("0" + s) == "0" + Front(s) && Last("0" + s) == Last(s);
      ValueOfZero(Front(s));
    }
  }

  lemma {:induction false} PaddedValue(s: string, width: nat)
    requires AllDigits(s)
    ensures AllDigits(Padded(s, width)) && Value(Padded(s, width)) == Value(s)
    ensures |Padded(s, width)| == Max(|s|, width)
    decreases width - |s|
  {
    if |s| < width {
      ValueOfZero(s);
      PaddedValue("0" + s, width);
    }
  }

  lemma TwelveDigits()
    ensures Pow10(MAX_DIGITS) == 1_000_000_000_000
  {
    assert Pow10(6) == 1_000_000;
    assert Pow10(12) == 1_000_000 * Pow10(6);
  }

  /** Formatting then parsing gives the number back exactly while it has at most twelve digits. */
  lemma NumberOfName(n: nat)
    ensures Number(Name(n)) == n <==> n < 1_000_000_000_000
    ensures n < 1_000_000_000_000 ==> Canonical(Name(n))
  {
    TwelveDigits();
    ValueOfDigits(n);
    PaddedValue(Digits(n), 3);
    assert Name(n)[7..] == Padded(Digits(n), 3);
  }

  lemma ValueOfOne()
    ensures AllDigits("1") && Value("1") == 1
  {
    assert Front("1") == "";
  }

  lemma ShortTail()
    ensures Number("TARGET-001") == 1 && Name(1) == "TARGET-001"
  {
    ValueOfOne();
    ValueOfZero("1");
    ValueOfZero("01");
    hide Value, AllDigits;
    assert "0" + "1" == "01" && "0" + "01" == "001" && "TARGET-001"[7..] == "001";
    assert Digits(1) == "1" && Padded("01", 3) == Padded("001", 3) == "001";
  }

  lemma LongTail()
    ensures Number("TARGET-0001") == 1
  {
    ValueOfOne();
    ValueOfZero("1");
    ValueOfZero("01");
    ValueOfZero("001");
    hide Value, AllDigits;
    assert "0" + "1" == "01" && "0" + "01" == "001" && "0" + "001" == "0001" && "TARGET-0001"[7..] == "0001";
  }

  /** Canonical names are unique per number; other spellings of a number are accepted as well. */
  lemma AliasExists()
    ensures Number("TARGET-0001") == Number("TARGET-001") == 1
    ensures Canonical("TARGET-001") && !Canonical("TARGET-0001")
  {
    ShortTail();
    LongTail();
    hide Number, Name;
    assert |"TARGET-0001"| != |"TARGET-001"|;
  }

  // ---- The table ----

  datatype Row = Row(owner: nat, password: nat, generation: nat, rotation: Option<nat>)

  /** Registered targets by number; numbers are handed out in order and never reused. */
  datatype Table = Table(rows: map<nat, Row>, next: nat)

  const NO_TARGETS: Table := Table(map[], 1)

  predicate Registered(t: Table, owner: nat) { exists n :: n in t.rows && t.rows[n].owner == owner }

  /** One row per owner, as the unique index enforces, and no row beyond the counter. */
  predicate TableInv(t: Table) {
    && 0 < t.next && (forall n :: n in t.rows ==> 0 < n < t.next)
    && (forall m, n :: m in t.rows && n in t.rows && t.rows[m].owner == t.rows[n].owner ==> m == n)
  }

  function Find(t: Table, owner: nat): (n: nat)
    requires TableInv(t) && Registered(t, owner)
    ensures n in t.rows && t.rows[n].owner == owner
  {
    var n :| n in t.rows && t.rows[n].owner == owner;
    n
  }

  function Lookup(t: Table, name: string): Option<Row> {
    var n := Number(name);
    if n >= 0 && n in t.rows then Some(t.rows[n]) else None
  }

  datatype Registration = Registration(table: Table, number: nat, generation: nat)

  function Register(t: Table, owner: nat, password: nat): Registration
    requires TableInv(t)
  {
    if Registered(t, owner) then Registration(t, Find(t, owner), t.rows[Find(t, owner)].generation)
    else
      Registration(Table(t.rows[t.next := Row(owner, password, 1, None)], t.next + 1), t.next, 1)
  }

  function Login(t: Table, name: string, password: nat): Option<nat> {
    match Lookup(t, name)
    case Some(row) => if row.password == password then Some(row.generation) else None
    case None => None
  }

  function OwnerCheck(t: Table, name: string, owner: nat): Option<nat> {
    match Lookup(t, name)
    case Some(row) => if row.owner == owner then Some(row.generation) else None
    case None => None
  }

  function Generation(t: Table, name: string): Option<nat> {
    match Lookup(t, name)
    case Some(row) => Some(row.generation)
    case None => None
  }

  /** Err is the ValueError of a failed authentication; the value is the table and the generation. */
  function Rotate(t: Table, name: string, owner: nat, password: nat, rotation: nat): Result<(Table, nat)> {
    match Lookup(t, name)
    case None => Err
    case Some(row) =>
      if row.owner != owner then Err
      else if row.rotation == Some(rotation) then Ok((t, row.generation))
      else
        var row' := Row(row.owner, password, row.generation + 1, Some(rotation));
        Ok((t.(rows := t.rows[Number(name) := row']), row.generation + 1))
  }

  /** Retrying a registration gives the same number and generation, changes nothing, and in particular
      never replaces the password; two owners never share a number. */
  lemma RegistrationStable(t: Table, owner: nat, password: nat, other: nat, again: nat)
    requires TableInv(t)
    ensures var r := Register(t, owner, password);
            && TableInv(r.table) && Registered(r.table, owner)
            && Register(r.table, owner, again) == r
            && (Registered(t, owner) ==> r.table == t)
            && (other != owner ==> Register(r.table, other, again).number != r.number)
  {
    var r := Register(t, owner, password);
    assert r.number in r.table.rows && r.table.rows[r.number].owner == owner;
    if other != owner {
      var s := Register(r.table, other, again);
      assert s.table.rows[s.number].owner == other;
      assert r.number in s.table.rows && s.table.rows[r.number].owner == owner;
    }
  }

  /** Resending a rotation changes nothing and reports the same generation; a new rotation raises the
      generation by one, makes exactly the new password work, and touches no other target. */
  lemma RotationIdempotent(t: Table, name: string, owner: nat, password: nat, rotation: nat, other: string)
    requires Rotate(t, name, owner, password, rotation).Ok?
    ensures var (t', generation) := Rotate(t, name, owner, password, rotation).value;
            && Rotate(t', name, owner, password, rotation) == Ok((t', generation))
            && (Lookup(t, name).value.rotation != Some(rotation) ==>
                  && Generation(t, name) == Some(generation - 1)
                  && forall p :: Login(t', name, p) == (if p == password then Some(generation) else None))
            && (Number(other) != Number(name) ==> Lookup(t', other) == Lookup(t, other))
  {
  }

  class Store {
    var rows: map<nat, Row>
    var next: nat

    function Contents(): Table
      reads this
    {
      Table(rows, next)
    }

    constructor ()
      ensures Contents() == NO_TARGETS
    {
      rows, next := map[], 1;
    }

    method AddTarget(owner: nat, password: nat) returns (number: nat, generation: nat)
      requires TableInv(Contents())
      modifies this
      ensures Registration(Contents(), number, generation) == Register(old(Contents()), owner, password)
    {
      if Registered(Contents(), owner) {
        number := Find(Contents(), owner);
        return number, rows[number].generation;
      }
      number := next;
      rows := rows[number := Row(owner, password, 1, None)];
      next := next + 1;
      return number, 1;
    }

    method ChangePassword(name: string, owner: nat, password: nat, rotation: nat) returns (r: Result<nat>)
      modifies this
      ensures var s := Rotate(old(Contents()), name, owner, password, rotation);
              match r
              case Err => s.Err? && Contents() == old(Contents())
              case Ok(generation) => s == Ok((Contents(), generation))
    {
      var n := Number(name);
      if n < 0 || n !in rows || rows[n].owner != owner {
        return Err;
      }
      if rows[n].rotation == Some(rotation) {
        return Ok(rows[n].generation);
      }
      var generation := rows[n].generation + 1;
      rows := rows[n := Row(owner, password, generation, Some(rotation))];
      return Ok(generation);
    }
  }
}
