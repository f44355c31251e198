/** Refresh-token rotation (backend/src/lib/refreshTokens.ts).

A token is named by its row: hashes are fresh and injective, so presenting a raw
token is naming its row. A rotation is several statements; between two of them
any other request may run.
*/
module RefreshTokens {
  import opened Tables

  type UserId = nat
  type TokenId = nat

  const RACE_GRACE_MS: int := 10_000
  const REFRESH_TOKEN_MAX_AGE_MS: int := 30 * 24 * 60 * 60 * 1000

  datatype Token = Token(user: UserId, expiresAt: int, revokedAt: Option<int>, replacedBy: Option<TokenId>)

  /** `Graced` is the answer `ok` with no token. */
  datatype Result = Rotated(newToken: TokenId) | Graced | NotFound | Expired | Reused

  predicate Live(t: Token) { t.revokedAt == None }

  /* ------------------------------------------------------------------ *
   * One statement each
   * ------------------------------------------------------------------ */

  function FreshToken(user: UserId, now: int): Token {
    Token(user, now + REFRESH_TOKEN_MAX_AGE_MS, None, None)
  }

  function RevokeRow(tokens: seq<Token>, t: TokenId, now: int): seq<Token> {
    if t < |tokens| then tokens[t := tokens[t].(revokedAt := Some(now))] else tokens
  }

  /** `updateMany` over a user's live rows. */
  function RevokeLive(tokens: seq<Token>, user: UserId, except: Option<TokenId>, now: int): (after: seq<Token>)
    ensures |after| == |tokens|
  {
    seq(|tokens|, i requires 0 <= i < |tokens| =>
      if tokens[i].user == user && Live(tokens[i]) && except != Some(i)
      then tokens[i].(revokedAt := Some(now)) else tokens[i])
  }

  /** The claim and its replacement, one transaction: nothing happens unless the row is live. */
  function ClaimAndReplace(tokens: seq<Token>, t: TokenId, now: int): seq<Token>
    requires t < |tokens|
  {
    if Live(tokens[t])
    then tokens[t := tokens[t].(revokedAt := Some(now), replacedBy := Some(|tokens|))]
         + [FreshToken(tokens[t].user, now)]
    else tokens
  }

  /** First half of the grace rule: superseded by a rotation, recently. */
  predicate RecentlyReplaced(t: Token, now: int) {
    t.revokedAt.Some? && now - t.revokedAt.value <= RACE_GRACE_MS && t.replacedBy.Some?
  }

  predicate Usable(tokens: seq<Token>, t: TokenId, now: int) {
    t < |tokens| && Live(tokens[t]) && tokens[t].expiresAt > now
  }

  /* ------------------------------------------------------------------ *
   * Any number of rotations, interleaved
   * ------------------------------------------------------------------ */

  datatype Stage =
    | Reading
    | Expiring
    | Claiming
    | Deciding
    | CheckingReplacement(replacement: TokenId)
    | Revoking
    | Done(result: Result)

  datatype Call = Call(token: TokenId, stage: Stage)

  datatype State = State(tokens: seq<Token>, calls: seq<Call>, now: int)

  datatype Step =
    | Issue(user: UserId)
    | Present(token: TokenId)
    | Advance(call: nat)
    | RevokeAll(user: UserId, except: Option<TokenId>)
    | Revoke(token: TokenId)
    | Tick(ms: nat)

  const EmptyState := State([], [], 0)

  function StageAfter(tokens: seq<Token>, c: Call, now: int): Stage {
    match c.stage
    case Reading =>
      if c.token >= |tokens| then Done(NotFound)
      else if !Live(tokens[c.token]) then Deciding
      else if tokens[c.token].expiresAt < now then Expiring
      else Claiming
    case Expiring => Done(Expired)
    case Claiming =>
      if c.token < |tokens| && Live(tokens[c.token]) then Done(Rotated(|tokens|)) else Deciding
    case Deciding =>
      if c.token < |tokens| && RecentlyReplaced(tokens[c.token], now)
      then CheckingReplacement(tokens[c.token].replacedBy.value) else Revoking
    case CheckingReplacement(r) => if Usable(tokens, r, now) then Done(Graced) else Revoking
    case Revoking => Done(Reused)
    case Done(_) => c.stage
  }

  function TokensAfter(tokens: seq<Token>, c: Call, now: int): seq<Token> {
    match c.stage
    case Expiring => RevokeRow(tokens, c.token, now)
    case Claiming => if c.token < |tokens| then ClaimAndReplace(tokens, c.token, now) else tokens
    case Revoking => if c.token < |tokens| then RevokeLive(tokens, tokens[c.token].user, None, now) else tokens
    case _ => tokens
  }

  function Do(s: State, step: Step): State {
    match step
    case Issue(user) => s.(tokens := s.tokens + [FreshToken(user, s.now)])
    case Present(t) => s.(calls := s.calls + [Call(t, Reading)])
    case Advance(i) =>
      if i < |s.calls| then
        var c := s.calls[i];
        State(TokensAfter(s.tokens, c, s.now),
              s.calls[i := c.(stage := StageAfter(s.tokens, c, s.now))],
              s.now)
      else s
    case RevokeAll(user, except) => s.(tokens := RevokeLive(s.tokens, user, except, s.now))
    case Revoke(t) =>
      if t < |s.tokens| && Live(s.tokens[t]) then s.(tokens := RevokeRow(s.tokens, t, s.now)) else s
    case Tick(ms) => s.(now := s.now + ms)
  }

  /* ------------------------------------------------------------------ *
   * The chain never forks
   * ------------------------------------------------------------------ */

  /** Successors point forward, stay with the user, are given only to revoked
      tokens, and are never shared. */
  ghost predicate Chain(tokens: seq<Token>) {
    && (forall i :: 0 <= i < |tokens| && tokens[i].replacedBy.Some? ==>
          && i < tokens[i].replacedBy.value < |tokens|
          && !Live(tokens[i])
          && tokens[tokens[i].replacedBy.value].user == tokens[i].user)
    && (forall i, j :: 0 <= i < j < |tokens| && tokens[i].replacedBy.Some? ==>
          tokens[i].replacedBy != tokens[j].replacedBy)
  }

  /** A call checking a replacement read it off its own token's row. */
  ghost predicate ChecksItsOwn(tokens: seq<Token>, c: Call) {
    c.stage.CheckingReplacement? ==>
      c.token < |tokens| && tokens[c.token].replacedBy == Some(c.stage.replacement)
  }

  ghost predicate Inv(s: State) {
    Chain(s.tokens) && forall i :: 0 <= i < |s.calls| ==> ChecksItsOwn(s.tokens, s.calls[i])
  }

  /** Rows are never deleted, never un-revoked, and a successor is never changed. */
  ghost predicate Continues(before: seq<Token>, after: seq<Token>) {
    && |before| <= |after|
    && forall i :: 0 <= i < |before| ==>
         && after[i].user == before[i].user
         && after[i].expiresAt == before[i].expiresAt
         && (Live(after[i]) ==> Live(before[i]))
         && (before[i].replacedBy.Some? || !Live(before[i]) ==> after[i].replacedBy == before[i].replacedBy)
  }

  /** An update that does nothing but revoke. */
  ghost predicate OnlyRevokes(before: seq<Token>, after: seq<Token>) {
    && |after| == |before|
    && forall i :: 0 <= i < |before| ==>
         after[i] == before[i] || (after[i].revokedAt.Some? && after[i] == before[i].(revokedAt := after[i].revokedAt))
  }

  lemma RevokingKeepsChain(before: seq<Token>, after: seq<Token>)
    requires Chain(before) && OnlyRevokes(before, after)
    ensures Chain(after) && Continues(before, after)
  {
  }

  lemma AppendingKeepsChain(tokens: seq<Token>, t: Token)
    requires Chain(tokens) && t.replacedBy == None
    ensures Chain(tokens + [t]) && Continues(tokens, tokens + [t])
  {
  }

  lemma ClaimingKeepsChain(tokens: seq<Token>, t: TokenId, now: int)
    requires Chain(tokens) && t < |tokens| && Live(tokens[t])
    ensures Chain(ClaimAndReplace(tokens, t, now)) && Continues(tokens, ClaimAndReplace(tokens, t, now))
  {
    var after := ClaimAndReplace(tokens, t, now);
    assert forall i :: 0 <= i < |tokens| && i != t ==> after[i] == tokens[i];
  }

  lemma TokensAfterKeepsChain(tokens: seq<Token>, c: Call, now: int)
    requires Chain(tokens)
    ensures Chain(TokensAfter(tokens, c, now)) && Continues(tokens, TokensAfter(tokens, c, now))
  {
    if c.stage == Claiming && c.token < |tokens| && Live(tokens[c.token]) {
      ClaimingKeepsChain(tokens, c.token, now);
    } else {
      RevokingKeepsChain(tokens, TokensAfter(tokens, c, now));
    }
  }

  lemma StepKeepsChain(s: State, step: Step)
    requires Chain(s.tokens)
    ensures Chain(Do(s, step).tokens) && Continues(s.tokens, Do(s, step).tokens)
  {
    match step {
      case Advance(i) => if i < |s.calls| { TokensAfterKeepsChain(s.tokens, s.calls[i], s.now); }
      case Issue(user) => AppendingKeepsChain(s.tokens, FreshToken(user, s.now));
      case _ => RevokingKeepsChain(s.tokens, Do(s, step).tokens);
    }
  }

  lemma CheckSurvives(before: seq<Token>, after: seq<Token>, c: Call)
    requires Continues(before, after) && ChecksItsOwn(before, c)
    ensures ChecksItsOwn(after, c)
  {
  }

  lemma AdvancedCallChecksItsOwn(tokens: seq<Token>, c: Call, now: int)
    ensures ChecksItsOwn(TokensAfter(tokens, c, now), c.(stage := StageAfter(tokens, c, now)))
  {
  }

  lemma StepKeepsInv(s: State, step: Step)
    requires Inv(s)
    ensures Inv(Do(s, step))
  {
    StepKeepsChain(s, step);
    var s' := Do(s, step);
    forall i | 0 <= i < |s'.calls| ensures ChecksItsOwn(s'.tokens, s'.calls[i]) {
      if step == Advance(i) {
        AdvancedCallChecksItsOwn(s.tokens, s.calls[i], s.now);
      } else if i < |s.calls| {
        CheckSurvives(s.tokens, s'.tokens, s.calls[i]);
      }
    }
  }

  function Run(steps: seq<Step>): State {
    if |steps| == 0 then EmptyState else Do(Run(steps[..|steps| - 1]), steps[|steps| - 1])
  }

  lemma {:induction false} RunKeepsInv(steps: seq<Step>)
    ensures Inv(Run(steps))
  {
    if |steps| > 0 {
      RunKeepsInv(steps[..|steps| - 1]);
      StepKeepsInv(Run(steps[..|steps| - 1]), steps[|steps| - 1]);
    }
  }

  /** The token a login issued, from which `t` was rotated. */
  ghost function Origin(tokens: seq<Token>, t: TokenId): (o: TokenId)
    requires t < |tokens|
    ensures o <= t
  {
    if p: TokenId :| p < t && tokens[p].replacedBy == Some(t) then Origin(tokens, p) else t
  }

  lemma {:induction false} OriginOfReplacement(tokens: seq<Token>, p: TokenId, t: TokenId)
    requires Chain(tokens) && p < t < |tokens| && tokens[p].replacedBy == Some(t)
    ensures Origin(tokens, t) == Origin(tokens, p)
  {
  }

  /** Two tokens of one session lie on one line: the earlier was replaced by a
      token no later than the other. */
  lemma {:induction false} SameOriginSameLine(tokens: seq<Token>, i: TokenId, j: TokenId)
    requires Chain(tokens) && i < j < |tokens|
    requires Origin(tokens, i) == Origin(tokens, j)
    ensures tokens[i].replacedBy.Some? && tokens[i].replacedBy.value <= j
    decreases i + j
  {
    if p: TokenId :| p < j && tokens[p].replacedBy == Some(j) {
      OriginOfReplacement(tokens, p, j);
      if i < p {
        SameOriginSameLine(tokens, i, p);
      } else if p < i {
        SameOriginSameLine(tokens, p, i);
      }
    }
  }

  /** In every reachable state each token has at most one successor and at most one
      predecessor, only the last of a chain is live, and so each issued session has
      at most one live token. */
  lemma ChainNeverForks(steps: seq<Step>, i: TokenId, j: TokenId)
    requires i < |Run(steps).tokens| && j < |Run(steps).tokens|
    ensures var tokens := Run(steps).tokens;
            && (tokens[i].replacedBy.Some? ==> i < tokens[i].replacedBy.value < |tokens| && !Live(tokens[i]))
            && (tokens[i].replacedBy.Some? && tokens[i].replacedBy == tokens[j].replacedBy ==> i == j)
            && (Live(tokens[i]) && Live(tokens[j]) && Origin(tokens, i) == Origin(tokens, j) ==> i == j)
  {
    RunKeepsInv(steps);
    var tokens := Run(steps).tokens;
    if Origin(tokens, i) == Origin(tokens, j) {
      if i < j {
        SameOriginSameLine(tokens, i, j);
      } else if j < i {
        SameOriginSameLine(tokens, j, i);
      }
    }
  }

  /* ------------------------------------------------------------------ *
   * Revoking everything
   * ------------------------------------------------------------------ */

  /** Every token this user had among the first `n` rows is dead, and its successor was among them. */
  ghost predicate DeadUpTo(tokens: seq<Token>, user: UserId, n: nat) {
    && n <= |tokens|
    && forall t :: 0 <= t < n && tokens[t].user == user ==>
         && !Live(tokens[t])
         && (tokens[t].replacedBy.Some? ==>
               (tokens[t].replacedBy.value < n && tokens[tokens[t].replacedBy.value].user == user))
  }

  lemma DeadStaysDead(before: seq<Token>, after: seq<Token>, user: UserId, n: nat)
    requires DeadUpTo(before, user, n) && Continues(before, after)
    ensures DeadUpTo(after, user, n)
  {
  }

  lemma RunOneMore(steps: seq<Step>, step: Step)
    ensures Run(steps + [step]) == Do(Run(steps), step)
  {
    assert (steps + [step])[..|steps|] == steps;
  }

  lemma RevokingKillsAll(s: State, user: UserId)
    requires Inv(s)
    ensures DeadUpTo(Do(s, RevokeAll(user, None)).tokens, user, |s.tokens|)
  {
  }

  lemma {:induction false} RevokedStaysDead(steps: seq<Step>, user: UserId, more: seq<Step>)
    ensures DeadUpTo(Run(steps + [RevokeAll(user, None)] + more).tokens, user, |Run(steps).tokens|)
    decreases |more|
  {
    var revoked := steps + [RevokeAll(user, None)];
    if |more| == 0 {
      assert revoked + more == revoked;
      RunKeepsInv(steps);
      RevokingKillsAll(Run(steps), user);
      RunOneMore(steps, RevokeAll(user, None));
    } else {
      var init, last := more[..|more| - 1], more[|more| - 1];
      RevokedStaysDead(steps, user, init);
      RunKeepsInv(revoked + init);
      StepKeepsChain(Run(revoked + init), last);
      RunOneMore(revoked + init, last);
      LastStep(revoked, more);
      DeadStaysDead(Run(revoked + init).tokens, Run(revoked + more).tokens, user, |Run(steps).tokens|);
    }
  }

  /** After a password change, whatever was in flight and whatever comes later, no
      request presenting a token that existed then is given anything: its next
      statement neither wins a claim nor passes the grace check. */
  lemma RevokedTokensNeverWork(steps: seq<Step>, user: UserId, more: seq<Step>, i: nat)
    requires var s := Run(steps + [RevokeAll(user, None)] + more);
             && i < |s.calls| && s.calls[i].token < |Run(steps).tokens| && s.calls[i].token < |s.tokens|
             && s.tokens[s.calls[i].token].user == user
             && !s.calls[i].stage.Done?
    ensures var s := Run(steps + [RevokeAll(user, None)] + more);
            var next := StageAfter(s.tokens, s.calls[i], s.now);
            next.Done? ==> next.result in {Expired, Reused}
  {
    var s := Run(steps + [RevokeAll(user, None)] + more);
    RunKeepsInv(steps + [RevokeAll(user, None)] + more);
    RevokedStaysDead(steps, user, more);
    assert ChecksItsOwn(s.tokens, s.calls[i]);
  }

  /* ------------------------------------------------------------------ *
   * Replays are punished
   * ------------------------------------------------------------------ */

  /** Every live token of the user is revoked, and no other row is touched. */
  ghost predicate SignedOut(before: seq<Token>, after: seq<Token>, user: UserId, now: int) {
    && |after| == |before|
    && forall k :: 0 <= k < |before| ==>
         after[k] == if before[k].user == user && before[k].revokedAt == None
                     then before[k].(revokedAt := Some(now)) else before[k]
  }

  lemma {:induction false} CallWaits(steps: seq<Step>, more: seq<Step>, i: nat)
    requires i < |Run(steps).calls| && Advance(i) !in more
    ensures i < |Run(steps + more).calls| && Run(steps + more).calls[i] == Run(steps).calls[i]
    ensures Continues(Run(steps).tokens, Run(steps + more).tokens)
  {
    if |more| == 0 {
      assert steps + more == steps;
    } else {
      var init, last := more[..|more| - 1], more[|more| - 1];
      assert last in more;
      CallWaits(steps, init, i);
      LastStep(steps, more);
      RunOneMore(steps + init, last);
      RunKeepsInv(steps + init);
      StepKeepsChain(Run(steps + init), last);
    }
  }

  /** A call that found its token superseded decides, and whatever runs in between takes its
      next statement. If the token was revoked more than ten seconds ago, or by something
      else than a rotation, that statement signs the user out and the answer is `Reused`. */
  lemma LateReplayIsPunished(steps: seq<Step>, more: seq<Step>, i: nat)
    requires i < |Run(steps).calls| && Run(steps).calls[i].stage == Deciding && Advance(i) !in more
    requires Run(steps).calls[i].token < |Run(steps).tokens|
    requires var s := Run(steps);
             var t := s.tokens[s.calls[i].token];
             t.revokedAt.Some? && (s.now > t.revokedAt.value + RACE_GRACE_MS || t.replacedBy == None)
    ensures var before := Run(steps + [Advance(i)] + more);
            var after := Do(before, Advance(i));
            && i < |after.calls| && after.calls[i].stage == Done(Reused)
            && SignedOut(before.tokens, after.tokens, Run(steps).tokens[Run(steps).calls[i].token].user, before.now)
  {
    RunOneMore(steps, Advance(i));
    CallWaits(steps + [Advance(i)], more, i);
  }

  /** Otherwise it is let through, and nobody signed out, if and only if the token it was
      replaced by is then live and unexpired; if not, one more statement signs the user out. */
  lemma RecentReplayIsGracedIff(steps: seq<Step>, more: seq<Step>, i: nat)
    requires i < |Run(steps).calls| && Run(steps).calls[i].stage == Deciding && Advance(i) !in more
    requires Run(steps).calls[i].token < |Run(steps).tokens|
    requires var s := Run(steps);
             var t := s.tokens[s.calls[i].token];
             t.revokedAt.Some? && s.now <= t.revokedAt.value + RACE_GRACE_MS && t.replacedBy.Some?
    ensures var before := Run(steps + [Advance(i)] + more);
            var after := Do(before, Advance(i));
            var r := Run(steps).tokens[Run(steps).calls[i].token].replacedBy.value;
            && r < |before.tokens| && i < |after.calls| && after.tokens == before.tokens
            && (after.calls[i].stage == Done(Graced)
                <==> before.tokens[r].revokedAt == None && before.now < before.tokens[r].expiresAt)
            && (after.calls[i].stage != Done(Graced) ==>
                  && Do(after, Advance(i)).calls[i].stage == Done(Reused)
                  && SignedOut(after.tokens, Do(after, Advance(i)).tokens,
                               Run(steps).tokens[Run(steps).calls[i].token].user, after.now))
  {
    RunOneMore(steps, Advance(i));
    CallWaits(steps + [Advance(i)], more, i);
    RunKeepsInv(steps);
  }

  /** A call gets to decide exactly when its token is revoked as it reads it, or by the time
      it claims it; a token that is live then it rotates, or finds expired. */
  lemma SupersededIsDecided(s: State, i: nat)
    requires i < |s.calls| && s.calls[i].token < |s.tokens|
    ensures var c, t, next := s.calls[i], s.tokens[s.calls[i].token], Do(s, Advance(i));
            && (c.stage == Reading ==>
                  && next.tokens == s.tokens
                  && next.calls[i].stage == if t.revokedAt.Some? then Deciding
                                            else if t.expiresAt < s.now then Expiring else Claiming)
            && (c.stage == Claiming && t.revokedAt.Some? ==>
                  next.tokens == s.tokens && next.calls[i].stage == Deciding)
            && (c.stage == Claiming && t.revokedAt == None ==>
                  && next.calls[i].stage == Done(Rotated(|s.tokens|))
                  && next.tokens == s.tokens[c.token := t.(revokedAt := Some(s.now), replacedBy := Some(|s.tokens|))]
                                    + [Token(t.user, s.now + REFRESH_TOKEN_MAX_AGE_MS, None, None)])
            && (c.stage == Expiring ==>
                  && next.calls[i].stage == Done(Expired)
                  && next.tokens == s.tokens[c.token := t.(revokedAt := Some(s.now))])
  {
  }

  /* ------------------------------------------------------------------ *
   * Races are not punished
   * ------------------------------------------------------------------ */

  /** Only rotations of `t`, and time passing: nothing else runs. */
  predicate RaceStep(step: Step, t: TokenId) {
    step == Present(t) || step.Advance? || step.Tick?
  }

  function RaceRun(start: State, steps: seq<Step>): State {
    if |steps| == 0 then start else Do(RaceRun(start, steps[..|steps| - 1]), steps[|steps| - 1])
  }

  /** `t` is live, well away from expiry, and no request is in flight. */
  predicate RaceStart(start: State, t: TokenId) {
    && |start.calls| == 0
    && t < |start.tokens| && Live(start.tokens[t])
    && start.tokens[t].expiresAt >= start.now + RACE_GRACE_MS
  }

  predicate BeforeClaim(c: Call, t: TokenId) {
    c.token == t && (c.stage == Reading || c.stage == Claiming)
  }

  /** Every stage a racer other than the winner can be in once the claim is made. */
  predicate AfterClaim(c: Call, t: TokenId, replacement: TokenId) {
    && c.token == t
    && (c.stage in {Reading, Claiming, Deciding, Done(Graced)} || c.stage == CheckingReplacement(replacement))
  }

  ghost predicate NotYetClaimed(start: State, t: TokenId, s: State) {
    s.tokens == start.tokens && forall i :: 0 <= i < |s.calls| ==> BeforeClaim(s.calls[i], t)
  }

  ghost predicate ClaimedAt(start: State, t: TokenId, s: State, at: int, winner: nat)
    requires t < |start.tokens|
  {
    var n := |start.tokens|;
    && start.now <= at <= s.now
    && s.tokens == ClaimAndReplace(start.tokens, t, at)
    && winner < |s.calls| && s.calls[winner] == Call(t, Done(Rotated(n)))
    && forall i :: 0 <= i < |s.calls| && i != winner ==> AfterClaim(s.calls[i], t, n)
  }

  ghost predicate RaceInv(start: State, t: TokenId, s: State)
    requires t < |start.tokens|
  {
    && start.now <= s.now
    && (NotYetClaimed(start, t, s) || exists at: int, winner: nat :: ClaimedAt(start, t, s, at, winner))
  }

  lemma RaceStepKeepsInv(start: State, t: TokenId, s: State, step: Step)
    requires RaceStart(start, t) && RaceInv(start, t, s) && RaceStep(step, t)
    requires Do(s, step).now <= start.now + RACE_GRACE_MS
    ensures RaceInv(start, t, Do(s, step))
  {
    var s' := Do(s, step);
    if NotYetClaimed(start, t, s) {
      if step.Advance? && step.call < |s.calls| && s.calls[step.call].stage == Claiming {
        assert ClaimedAt(start, t, s', s.now, step.call);
      } else {
        assert NotYetClaimed(start, t, s');
      }
    } else {
      var at: int, winner: nat :| ClaimedAt(start, t, s, at, winner);
      assert ClaimedAt(start, t, s', at, winner);
    }
  }

  lemma {:induction false} RaceKeepsInv(start: State, t: TokenId, steps: seq<Step>)
    requires RaceStart(start, t)
    requires forall k :: 0 <= k < |steps| ==> RaceStep(steps[k], t)
    requires RaceRun(start, steps).now <= start.now + RACE_GRACE_MS
    ensures RaceInv(start, t, RaceRun(start, steps))
  {
    if |steps| == 0 {
      assert NotYetClaimed(start, t, start);
    } else {
      RaceKeepsInv(start, t, steps[..|steps| - 1]);
      RaceStepKeepsInv(start, t, RaceRun(start, steps[..|steps| - 1]), steps[|steps| - 1]);
    }
  }

  /** Any number of requests race to rotate one live token, in any interleaving,
      inside the grace window. When all have answered exactly one was given a new
      token, every other was let through without one, nobody was read as a thief,
      and the new token is the only change to which tokens are live. */
  lemma RacesAreNotPunished(start: State, t: TokenId, steps: seq<Step>)
    requires RaceStart(start, t)
    requires forall k :: 0 <= k < |steps| ==> RaceStep(steps[k], t)
    requires RaceRun(start, steps).now <= start.now + RACE_GRACE_MS
    requires |RaceRun(start, steps).calls| > 0
    requires forall i :: 0 <= i < |RaceRun(start, steps).calls| ==> RaceRun(start, steps).calls[i].stage.Done?
    ensures var s, n := RaceRun(start, steps), |start.tokens|;
            && (exists winner :: 0 <= winner < |s.calls| && s.calls[winner].stage == Done(Rotated(n))
                  && forall i :: 0 <= i < |s.calls| && i != winner ==> s.calls[i].stage == Done(Graced))
            && |s.tokens| == n + 1 && Live(s.tokens[n]) && !Live(s.tokens[t])
            && s.tokens[t].replacedBy == Some(n) && s.tokens[n].user == start.tokens[t].user
            && forall k :: 0 <= k < n && k != t ==> s.tokens[k] == start.tokens[k]
  {
    RaceKeepsInv(start, t, steps);
    var s := RaceRun(start, steps);
    assert !BeforeClaim(s.calls[0], t);
    var at: int, winner: nat :| ClaimedAt(start, t, s, at, winner);
    assert s.calls[winner].stage == Done(Rotated(|start.tokens|));
  }

  /* ------------------------------------------------------------------ *
   * The functions as the code runs them, uninterrupted
   * ------------------------------------------------------------------ */

  /** One rotation with nothing beside it: a live token is exchanged or found
      expired, the loser of a recent race is let through, and anything else about a
      revoked token revokes the whole user. */
  function Rotation(tokens: seq<Token>, t: TokenId, now: int): (seq<Token>, Result) {
    if t >= |tokens| then (tokens, NotFound)
    else if Live(tokens[t]) && now <= tokens[t].expiresAt then
      (tokens[t := tokens[t].(revokedAt := Some(now), replacedBy := Some(|tokens|))]
       + [Token(tokens[t].user, now + REFRESH_TOKEN_MAX_AGE_MS, None, None)],
       Rotated(|tokens|))
    else if Live(tokens[t]) then
      (tokens[t := tokens[t].(revokedAt := Some(now))], Expired)
    else if && RecentlyReplaced(tokens[t], now)
            && Usable(tokens, tokens[t].replacedBy.value, now) then (tokens, Graced)
    else (RevokeLive(tokens, tokens[t].user, None, now), Reused)
  }

  function StatementsLeft(stage: Stage): nat {
    match stage
    case Reading => 5
    case Claiming => 4
    case Deciding => 3
    case CheckingReplacement(_) => 2
    case Revoking => 1
    case Expiring => 1
    case Done(_) => 0
  }

  /** The statements of one call run back to back. */
  function RunToEnd(tokens: seq<Token>, c: Call, now: int): (seq<Token>, Result)
    decreases StatementsLeft(c.stage)
  {
    if c.stage.Done? then (tokens, c.stage.result)
    else RunToEnd(TokensAfter(tokens, c, now), c.(stage := StageAfter(tokens, c, now)), now)
  }

  /** The interleaved machine and the uninterrupted function agree. */
  lemma CallAloneRotates(tokens: seq<Token>, t: TokenId, now: int)
    ensures RunToEnd(tokens, Call(t, Reading), now) == Rotation(tokens, t, now)
  {
    var stage := StageAfter(tokens, Call(t, Reading), now);
    assert RunToEnd(tokens, Call(t, Reading), now) == RunToEnd(tokens, Call(t, stage), now);
    assert t < |tokens| ==>
      RunToEnd(tokens, Call(t, Revoking), now) == (RevokeLive(tokens, tokens[t].user, None, now), Reused);
    if !stage.Done? {
      var stage' := StageAfter(tokens, Call(t, stage), now);
      var tokens' := TokensAfter(tokens, Call(t, stage), now);
      assert RunToEnd(tokens, Call(t, stage), now) == RunToEnd(tokens', Call(t, stage'), now);
      if stage == Deciding && stage' != Revoking {
        var stage'' := StageAfter(tokens, Call(t, stage'), now);
        assert RunToEnd(tokens, Call(t, stage'), now) == RunToEnd(tokens, Call(t, stage''), now);
      }
    }
  }

  class TokenStore {
    var tokens: seq<Token>

    method IssueRefreshToken(user: UserId, now: int) returns (t: TokenId)
      modifies this
      ensures t == |old(tokens)|
      ensures tokens == old(tokens) + [Token(user, now + REFRESH_TOKEN_MAX_AGE_MS, None, None)]
      ensures State(tokens, [], now) == Do(State(old(tokens), [], now), Issue(user))
    {
      t := |tokens|;
      tokens := tokens + [FreshToken(user, now)];
    }

    method DecideOnSupersededToken(t: TokenId, now: int) returns (r: Result)
      requires t < |tokens|
      modifies this
      ensures r == if && RecentlyReplaced(old(tokens)[t], now)
                      && Usable(old(tokens), old(tokens)[t].replacedBy.value, now) then Graced else Reused
      ensures tokens == if r == Graced then old(tokens)
                        else RevokeLive(old(tokens), old(tokens)[t].user, None, now)
      ensures var record := old(tokens)[t];
              r == Graced
              <==> && record.revokedAt.Some? && now <= record.revokedAt.value + RACE_GRACE_MS
                   && record.replacedBy.Some? && record.replacedBy.value < |old(tokens)|
                   && old(tokens)[record.replacedBy.value].revokedAt == None
                   && now < old(tokens)[record.replacedBy.value].expiresAt
      ensures r != Graced ==> r == Reused && SignedOut(old(tokens), tokens, old(tokens)[t].user, now)
    {
      if RecentlyReplaced(tokens[t], now) && Usable(tokens, tokens[t].replacedBy.value, now) {
        return Graced;
      }
      tokens := RevokeLive(tokens, tokens[t].user, None, now);
      return Reused;
    }

    method RotateRefreshToken(t: TokenId, now: int) returns (r: Result)
      modifies this
      ensures (tokens, r) == Rotation(old(tokens), t, now)
      ensures t >= |old(tokens)| ==> r == NotFound && tokens == old(tokens)
      ensures t < |old(tokens)| && old(tokens)[t].revokedAt == None ==>
                var record := old(tokens)[t];
                if now <= record.expiresAt then
                  && r == Rotated(|old(tokens)|)
                  && tokens == old(tokens)[t := record.(revokedAt := Some(now), replacedBy := Some(|old(tokens)|))]
                               + [Token(record.user, now + REFRESH_TOKEN_MAX_AGE_MS, None, None)]
                else
                  r == Expired && tokens == old(tokens)[t := record.(revokedAt := Some(now))]
      ensures t < |old(tokens)| && old(tokens)[t].revokedAt.Some? ==>
                var record := old(tokens)[t];
                && (r == Graced
                    <==> && now <= record.revokedAt.value + RACE_GRACE_MS
                         && record.replacedBy.Some? && record.replacedBy.value < |old(tokens)|
                         && old(tokens)[record.replacedBy.value].revokedAt == None
                         && now < old(tokens)[record.replacedBy.value].expiresAt)
                && (r == Graced ==> tokens == old(tokens))
                && (r != Graced ==> r == Reused && SignedOut(old(tokens), tokens, record.user, now))
    {
      if t >= |tokens| { return NotFound; }
      var record := tokens[t];
      if !Live(record) {
        r := DecideOnSupersededToken(t, now);
        return;
      }
      if record.expiresAt < now {
        tokens := tokens[t := record.(revokedAt := Some(now))];
        return Expired;
      }
      var replacement := |tokens|;
      tokens := tokens[t := record.(revokedAt := Some(now), replacedBy := Some(replacement))];
      tokens := tokens + [FreshToken(record.user, now)];
      return Rotated(replacement);
    }

    method RevokeAllRefreshTokens(user: UserId, except: Option<TokenId>, now: int) returns (count: nat)
      modifies this
      ensures tokens == RevokeLive(old(tokens), user, except, now)
      ensures |tokens| == |old(tokens)|
      ensures forall t :: 0 <= t < |tokens| ==>
                tokens[t] == if old(tokens)[t].user == user && old(tokens)[t].revokedAt == None && except != Some(t)
                             then old(tokens)[t].(revokedAt := Some(now)) else old(tokens)[t]
      ensures count == |set t | 0 <= t < |tokens| && Live(old(tokens)[t]) && !Live(tokens[t])|
      ensures State(tokens, [], now) == Do(State(old(tokens), [], now), RevokeAll(user, except))
    {
      var before := tokens;
      tokens := RevokeLive(tokens, user, except, now);
      var revoked := set t | 0 <= t < |before| && before[t].user == user && Live(before[t]) && except != Some(t);
      assert revoked == set t | 0 <= t < |tokens| && Live(before[t]) && !Live(tokens[t]);
      count := |revoked|;
    }

    method RevokeRefreshToken(t: TokenId, now: int)
      modifies this
      ensures tokens == if t < |old(tokens)| && Live(old(tokens)[t])
                        then old(tokens)[t := old(tokens)[t].(revokedAt := Some(now))] else old(tokens)
      ensures State(tokens, [], now) == Do(State(old(tokens), [], now), Revoke(t))
    {
      if t < |tokens| && Live(tokens[t]) {
        tokens := tokens[t := tokens[t].(revokedAt := Some(now))];
      }
    }
  }
}
