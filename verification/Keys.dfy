/**
 The names under which ORBITER stores leases, tokens, claims and done markers, and the values it
 stores there. The text forms are injective, so the rest of the model uses the structured forms.
 */
module Keys {
  type JobId = string
  type WorkerId = string

  datatype Key = LeaseKey(job: JobId) | TokenKey(job: JobId) | DoneKey(job: JobId) | ClaimKey(job: JobId)

  /** `worker:attempt` in a claim or done marker, `holder:token` in a lease. */
  datatype Owner = Owner(worker: WorkerId, number: nat)

  function KeyText(key: Key): string {
    match key
    case LeaseKey(j) => "orbiter:lease:" + j
    case TokenKey(j) => "orbiter:lease:" + j + ":token"
    case DoneKey(j) => "orbiter:exec:" + j + ":done"
    case ClaimKey(j) => "orbiter:exec:" + j + ":claim"
  }

  function Decimal(n: nat): string {
    if n < 10 then [Digit(n)] else Decimal(n / 10) + [Digit(n % 10)]
  }

  function Digit(d: nat): char
    requires d < 10
  {
    "0123456789"[d]
  }

  function OwnerText(owner: Owner): string {
    owner.worker + ":" + Decimal(owner.number)
  }

  predicate ColonFree(text: string) {
    ':' !in text
  }

  /** Job ids are UUIDs in their textual form, which has no colon; then no two keys collide. */
  lemma KeysNeverCollide(a: Key, b: Key)
    requires ColonFree(a.job) && ColonFree(b.job)
    requires KeyText(a) == KeyText(b)
    ensures a == b
  {
    var (p, u) := Split(a);
    var (q, v) := Split(b);
    KeySplits(a);
    KeySplits(b);
    assert p == q;
    assert a.job + u == KeyText(a)[|p|..] == b.job + v;
    FirstColon(a.job, u, b.job, v);
  }

  /** A key's text is its split, and its ninth character tells which prefix it has. */
  lemma KeySplits(key: Key)
    ensures KeyText(key) == Split(key).0 + (key.job + Split(key).1) && |KeyText(key)| > 8
    ensures KeyText(key)[8] == (if key.LeaseKey? || key.TokenKey? then 'l' else 'e')
  {}

  /** What precedes and what follows the job id in a key; the rest starts with a colon or is empty. */
  function Split(key: Key): (string, string) {
    match key
    case LeaseKey(_) => ("orbiter:lease:", "")
    case TokenKey(_) => ("orbiter:lease:", ":token")
    case DoneKey(_) => ("orbiter:exec:", ":done")
    case ClaimKey(_) => ("orbiter:exec:", ":claim")
  }

  /** A text splits in only one way into a colon-free part and a rest that is empty or starts with a colon. */
  lemma FirstColon(j: string, u: string, k: string, v: string)
    requires ColonFree(j) && ColonFree(k)
    requires (u == "" || u[0] == ':') && (v == "" || v[0] == ':')
    requires j + u == k + v
    ensures j == k && u == v
  {
    var text := j + u;
    assert forall i :: 0 <= i < |j| ==> text[i] == j[i];
    assert forall i :: 0 <= i < |k| ==> text[i] == k[i];
    assert u != "" ==> text[|j|] == ':';
    assert v != "" ==> text[|k|] == ':';
    assert |j| == |k|;
    assert j == text[..|j|] == k;
    assert u == text[|j|..] == v;
  }

  /** Whatever the worker is called, `worker:number` determines both. */
  lemma OwnersNeverCollide(a: Owner, b: Owner)
    requires OwnerText(a) == OwnerText(b)
    ensures a == b
  {
    var text := OwnerText(a);
    var m, n := |a.worker|, |b.worker|;
    DecimalColonFree(a.number);
    DecimalColonFree(b.number);
    assert text[m] == ':' && text[n] == ':';
    assert forall i :: m < i < |text| ==> text[i] == Decimal(a.number)[i - m - 1];
    assert forall i :: n < i < |text| ==> text[i] == Decimal(b.number)[i - n - 1];
    assert m == n;
    assert a.worker == text[..m] == b.worker;
    assert Decimal(a.number) == text[m + 1..] == Decimal(b.number);
    DecimalReads(a.number);
    DecimalReads(b.number);
  }

  lemma {:induction false} DecimalColonFree(n: nat)
    ensures ColonFree(Decimal(n)) && Decimal(n) != ""
  {
    if n >= 10 { DecimalColonFree(n / 10); }
  }

  /** What a decimal numeral says. */
  function Value(text: string): int {
    if text == "" then 0 else 10 * Value(text[..|text| - 1]) + (text[|text| - 1] as int - '0' as int)
  }

  lemma DigitSays(d: nat)
    requires d < 10
    ensures Digit(d) as int - '0' as int == d
  {}

  /** The text of a number reads back as the number. */
  lemma {:induction false} DecimalReads(n: nat)
    ensures Value(Decimal(n)) == n
  {
    var text := Decimal(n);
    DigitSays(n % 10);
    if n < 10 {
      assert text[..0] == "";
    } else {
      DecimalReads(n / 10);
      assert text[..|text| - 1] == Decimal(n / 10);
    }
  }
}
