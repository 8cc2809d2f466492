/** The confirmation guard, for any judgement of texts. */
module ConfirmationGuard {
  import opened Text

  // ---------------------------------------------------------------- the guard

  /** What the guard knows about a text: whether it needs no confirmation, and the fingerprint of its normal form. */
  datatype Judge = Judge(safe: string -> bool, stamp: string -> u64)

  /** The guard's fields as a value. */
  datatype Guard = Guard(enabled: bool, nonce: u64, pending: map<string, u64>)

  datatype ConfirmResult = Confirmed | InvalidToken | SqlMismatch

  function NextNonce(nonce: u64): u64 {
    if nonce < U64_MAX then nonce + 1 else nonce
  }

  function TokenText(nonce: nat, fingerprint: u64): string {
    "confirm-" + Decimal(nonce) + "-" + Hex(fingerprint, 16)
  }

  function NewGuard(enabled: bool): Guard {
    Guard(enabled, 0, map[])
  }

  function Switched(g: Guard, enabled: bool): Guard {
    g.(enabled := enabled, pending := if enabled then g.pending else map[])
  }

  /** The token that evaluating sql in state g asks to confirm, if it asks. */
  function AskedToken(g: Guard, judge: Judge, sql: string): Option<string> {
    if !g.enabled || judge.safe(sql) then None
    else Some(TokenText(NextNonce(g.nonce), judge.stamp(sql)))
  }

  function Evaluated(g: Guard, judge: Judge, sql: string): Guard {
    match AskedToken(g, judge, sql)
    case None => g
    case Some(token) => g.(nonce := NextNonce(g.nonce), pending := g.pending[token := judge.stamp(sql)])
  }

  function ConfirmReply(g: Guard, judge: Judge, token: string, sql: string): ConfirmResult {
    if token !in g.pending then InvalidToken
    else if g.pending[token] != judge.stamp(sql) then SqlMismatch
    else Confirmed
  }

  function Spent(g: Guard, token: string): Guard {
    g.(pending := g.pending - {token})
  }

  // ---------------------------------------------------------------- runs of the guard

  datatype GuardCall = EvaluateCall(sql: string) | ConfirmCall(token: string, sql: string)
    | SetEnabledCall(enabled: bool)

  function Step(g: Guard, judge: Judge, call: GuardCall): Guard {
    match call
    case EvaluateCall(sql) => Evaluated(g, judge, sql)
    case ConfirmCall(token, _) => Spent(g, token)
    case SetEnabledCall(enabled) => Switched(g, enabled)
  }

  /** The guard after the first k calls, starting from a new guard. */
  function After(on: bool, judge: Judge, calls: seq<GuardCall>, k: nat): Guard
    requires k <= |calls|
  {
    if k == 0 then NewGuard(on) else Step(After(on, judge, calls, k - 1), judge, calls[k - 1])
  }

  /** Call j evaluated SQL and asked to confirm it with this token. */
  predicate Issued(on: bool, judge: Judge, calls: seq<GuardCall>, j: nat, token: string) {
    && j < |calls|
    && calls[j].EvaluateCall?
    && AskedToken(After(on, judge, calls, j), judge, calls[j].sql) == Some(token)
  }

  /** Call j issued the token, and no call between j and k used it or turned the guard off. */
  ghost predicate Held(on: bool, judge: Judge, calls: seq<GuardCall>, j: nat, k: nat, token: string) {
    && j < k <= |calls|
    && Issued(on, judge, calls, j, token)
    && forall i :: j < i < k ==>
         && !(calls[i].ConfirmCall? && calls[i].token == token)
         && calls[i] != SetEnabledCall(false)
  }

  lemma {:induction false} TokenInjective(m: nat, f: u64, n: nat, g: u64)
    requires TokenText(m, f) == TokenText(n, g)
    ensures m == n && f == g
  {
    hide Decimal, Hex;
    var s, t := Decimal(m) + "-" + Hex(f, 16), Decimal(n) + "-" + Hex(g, 16);
    assert TokenText(m, f) == "confirm-" + s && TokenText(n, g) == "confirm-" + t;
    assert s == TokenText(m, f)[8..] && t == TokenText(n, g)[8..];
    assert |s| == |t|;
    assert |Decimal(m)| == |Decimal(n)|;
    assert Decimal(m) == s[..|Decimal(m)|] == t[..|Decimal(n)|] == Decimal(n);
    assert Hex(f, 16) == s[|Decimal(m)| + 1..] == t[|Decimal(n)| + 1..] == Hex(g, 16);
    DecimalInjective(m, n);
    Power16Bound();
    HexInjective(f, g, 16);
  }

  lemma Power16Bound()
    ensures Power16(16) == U64_MAX + 1
  {
    assert Power16(4) == 0x1_0000;
    assert Power16(8) == 0x1_0000_0000;
    assert Power16(12) == 0x1_0000_0000_0000;
  }

  lemma {:induction false} HeldIsPending(on: bool, judge: Judge, calls: seq<GuardCall>, j: nat, k: nat,
      token: string)
    requires Held(on, judge, calls, j, k, token)
    ensures token in After(on, judge, calls, k).pending
    ensures After(on, judge, calls, k).pending[token] == judge.stamp(calls[j].sql)
    decreases k
  {
    hide TokenText, Step, Issued, AskedToken;
    HeldStep(on, judge, calls, j, k, token);
    var g := After(on, judge, calls, k - 1);
    PendingStep(g, judge, calls[k - 1], token);
    IssuedIsAsked(on, judge, calls, k - 1, token);
    if j < k - 1 {
      HeldIsPending(on, judge, calls, j, k - 1, token);
      if Asks(g, judge, calls[k - 1], token) {
        SameTokenSameFingerprint(on, judge, calls, j, k - 1, token);
      }
    }
  }

  lemma {:induction false} PendingIsHeld(on: bool, judge: Judge, calls: seq<GuardCall>, k: nat, token: string)
    returns (j: nat)
    requires k <= |calls| && token in After(on, judge, calls, k).pending
    ensures Held(on, judge, calls, j, k, token)
  {
    hide TokenText, Step, Held, Issued, AskedToken;
    var g := After(on, judge, calls, k - 1);
    PendingStep(g, judge, calls[k - 1], token);
    IssuedIsAsked(on, judge, calls, k - 1, token);
    if Asks(g, judge, calls[k - 1], token) {
      j := k - 1;
    } else {
      j := PendingIsHeld(on, judge, calls, k - 1, token);
    }
    HeldStep(on, judge, calls, j, k, token);
  }

  /** The call uses the token or turns the guard off. */
  predicate Ends(call: GuardCall, token: string) {
    (call.ConfirmCall? && call.token == token) || call == SetEnabledCall(false)
  }

  predicate Asks(g: Guard, judge: Judge, call: GuardCall, token: string) {
    call.EvaluateCall? && AskedToken(g, judge, call.sql) == Some(token)
  }

  lemma IssuedIsAsked(on: bool, judge: Judge, calls: seq<GuardCall>, j: nat, token: string)
    requires j < |calls|
    ensures Issued(on, judge, calls, j, token) <==> Asks(After(on, judge, calls, j), judge, calls[j], token)
  {
  }

  lemma PendingStep(g: Guard, judge: Judge, call: GuardCall, token: string)
    ensures token in Step(g, judge, call).pending <==>
      Asks(g, judge, call, token) || (token in g.pending && !Ends(call, token))
    ensures Asks(g, judge, call, token) ==> Step(g, judge, call).pending[token] == judge.stamp(call.sql)
    ensures !Asks(g, judge, call, token) && token in g.pending && !Ends(call, token) ==>
      Step(g, judge, call).pending[token] == g.pending[token]
  {
    hide TokenText;
  }

  lemma HeldStep(on: bool, judge: Judge, calls: seq<GuardCall>, j: nat, k: nat, token: string)
    requires 0 < k <= |calls|
    ensures Held(on, judge, calls, j, k, token) <==>
      || (j == k - 1 && Issued(on, judge, calls, j, token))
      || (Held(on, judge, calls, j, k - 1, token) && !Ends(calls[k - 1], token))
    ensures Held(on, judge, calls, j, k, token) ==> j < k && Issued(on, judge, calls, j, token)
  {
    hide Issued;
  }

  lemma SameTokenSameFingerprint(on: bool, judge: Judge, calls: seq<GuardCall>, i: nat, j: nat, token: string)
    requires Issued(on, judge, calls, i, token) && Issued(on, judge, calls, j, token)
    ensures judge.stamp(calls[i].sql) == judge.stamp(calls[j].sql)
    ensures NextNonce(After(on, judge, calls, i).nonce) == NextNonce(After(on, judge, calls, j).nonce)
  {
    hide TokenText, After;
    var a, b := After(on, judge, calls, i), After(on, judge, calls, j);
    TokenInjective(NextNonce(a.nonce), judge.stamp(calls[i].sql), NextNonce(b.nonce), judge.stamp(calls[j].sql));
  }

  /** A confirmation succeeds exactly when its token was issued by an earlier evaluation of SQL with
      the same fingerprint, not used since, with the guard not turned off in between. */
  lemma ConfirmSucceedsIff(on: bool, judge: Judge, calls: seq<GuardCall>, k: nat, token: string, sql: string)
    requires k <= |calls|
    ensures ConfirmReply(After(on, judge, calls, k), judge, token, sql) == Confirmed <==>
      exists j: nat :: Held(on, judge, calls, j, k, token) && judge.stamp(calls[j].sql) == judge.stamp(sql)
    ensures ConfirmReply(After(on, judge, calls, k), judge, token, sql) == InvalidToken <==>
      forall j: nat :: !Held(on, judge, calls, j, k, token)
  {
    hide After;
    if token in After(on, judge, calls, k).pending {
      var j := PendingIsHeld(on, judge, calls, k, token);
      HeldIsPending(on, judge, calls, j, k, token);
    }
    forall j: nat | Held(on, judge, calls, j, k, token)
      ensures token in After(on, judge, calls, k).pending
      ensures After(on, judge, calls, k).pending[token] == judge.stamp(calls[j].sql)
    {
      HeldIsPending(on, judge, calls, j, k, token);
    }
  }

  /** The guard was last switched on, or started on and was not switched. */
  predicate SwitchedOn(on: bool, calls: seq<GuardCall>) {
    if calls == [] then on
    else if calls[|calls| - 1].SetEnabledCall? then calls[|calls| - 1].enabled
    else SwitchedOn(on, calls[..|calls| - 1])
  }

  lemma {:induction false} EnabledIsSwitchedOn(on: bool, judge: Judge, calls: seq<GuardCall>, k: nat)
    requires k <= |calls|
    ensures After(on, judge, calls, k).enabled == SwitchedOn(on, calls[..k])
  {
    hide TokenText;
    if k > 0 {
      EnabledIsSwitchedOn(on, judge, calls, k - 1);
      assert calls[..k][..k - 1] == calls[..k - 1];
    }
  }

  /** In every run, an evaluation asks for a confirmation exactly when the guard is switched on and the text is
      not safe. */
  lemma AsksIff(on: bool, judge: Judge, calls: seq<GuardCall>, j: nat)
    requires j < |calls|
    ensures (exists token :: Issued(on, judge, calls, j, token)) <==>
            calls[j].EvaluateCall? && SwitchedOn(on, calls[..j]) && !judge.safe(calls[j].sql)
  {
    hide After, TokenText, SwitchedOn;
    EnabledIsSwitchedOn(on, judge, calls, j);
    if calls[j].EvaluateCall? {
      var token := AskedToken(After(on, judge, calls, j), judge, calls[j].sql);
      if token.Some? {
        assert Issued(on, judge, calls, j, token.value);
      }
    }
  }

  lemma {:induction false} NonceGrows(on: bool, judge: Judge, calls: seq<GuardCall>, i: nat, j: nat)
    requires i <= j <= |calls|
    ensures After(on, judge, calls, i).nonce <= After(on, judge, calls, j).nonce
  {
    hide TokenText;
    if i < j {
      NonceGrows(on, judge, calls, i, j - 1);
    }
  }

  /** Two issued tokens coincide exactly when the nonce was already exhausted at the first
      and the fingerprints are the same. */
  lemma TokensCoincideIff(on: bool, judge: Judge, calls: seq<GuardCall>, i: nat, j: nat, s: string, t: string)
    requires i < j && Issued(on, judge, calls, i, s) && Issued(on, judge, calls, j, t)
    ensures s == t <==>
      After(on, judge, calls, i + 1).nonce == U64_MAX && judge.stamp(calls[i].sql) == judge.stamp(calls[j].sql)
  {
    hide TokenText;
    NonceGrows(on, judge, calls, i + 1, j);
    assert After(on, judge, calls, i + 1).nonce == NextNonce(After(on, judge, calls, i).nonce);
    if s == t {
      SameTokenSameFingerprint(on, judge, calls, i, j, s);
    }
  }
}
