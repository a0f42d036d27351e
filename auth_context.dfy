/**
 * Sign-in (src/contexts/AuthContext.tsx): a name and PIN map to an identity
 * key; a new identity gets the next treatment group, a fresh id and a
 * shuffled image sequence; a phase-1 participant is held back until the
 * washout period has passed.
 *
 * The Firestore collections are the maps of `Db`. `Math.random()` is replaced
 * by draws given as inputs, `Date.now()` by `now`, and a failure of the
 * anonymous sign-in or of the phase update by an error message.
 */
module Auth {
  import opened Wrappers
  import opened Strings
  import opened StudyTypes
  import opened IdGenerator

  // ---------------------------------------------------------------------------
  // Identity key

  /** `${name.toLowerCase().trim()}_${pin}`. */
  function IdentityKey(name: string, pin: string): (key: string)
    ensures |key| > |pin| && key[|key| - |pin| - 1] == '_' && key[|key| - |pin|..] == pin
  {
    Trim(Lower(name)) + "_" + pin
  }

  /** The key ignores letter case and surrounding whitespace in the name. */
  lemma IdentityKeyNormalises(name: string, pin: string)
    ensures IdentityKey(Lower(name), pin) == IdentityKey(name, pin)
    ensures IdentityKey(Trim(name), pin) == IdentityKey(name, pin)
    ensures IdentityKey(name, pin) == Lower(Trim(name)) + "_" + pin
  {
    LowerIdempotent(name);
    LowerTrimCommute(name);
    LowerTrimCommute(Trim(name));
    TrimIdempotent(name);
  }

  /**
   * Name and PIN are joined by `_` unescaped: the name `a_b` with PIN `c` and
   * the name `a` with PIN `b_c` share a key.
   */
  lemma IdentityKeyAmbiguous()
    ensures IdentityKey("a" + "_" + "b", "c") == IdentityKey("a", "b" + "_" + "c")
  {
    UnderscoreMoves("a", "b", "c");
  }

  /** For plain names, an `_` can move from the end of the name to the start of the PIN. */
  lemma UnderscoreMoves(a: string, b: string, pin: string)
    requires PlainText(a) && PlainText(b)
    ensures IdentityKey(a + "_" + b, pin) == IdentityKey(a, b + "_" + pin)
  {
    assert (a + "_" + b) + "_" + pin == a + "_" + (b + "_" + pin);
    PlainJoin(a, b);
    calc {
      IdentityKey(a + "_" + b, pin);
      { PlainKey(a + "_" + b, pin); }
      (a + "_" + b) + "_" + pin;
      a + "_" + (b + "_" + pin);
      { PlainKey(a, b + "_" + pin); }
      IdentityKey(a, b + "_" + pin);
    }
  }

  /** A plain name enters the key as it is. */
  lemma PlainKey(name: string, pin: string)
    requires PlainText(name)
    ensures IdentityKey(name, pin) == name + "_" + pin
  {
    PlainName(name);
  }

  /** Only lower-case letters and underscores. */
  predicate PlainText(s: string) {
    forall i :: 0 <= i < |s| ==> 'a' <= s[i] <= 'z' || s[i] == '_'
  }

  lemma PlainJoin(a: string, b: string)
    requires PlainText(a) && PlainText(b)
    ensures PlainText(a + "_" + b)
  {
    var name := a + "_" + b;
    forall i | 0 <= i < |name|
      ensures 'a' <= name[i] <= 'z' || name[i] == '_'
    {
      if i < |a| { assert name[i] == a[i]; }
      else if i > |a| { assert name[i] == b[i - |a| - 1]; }
    }
  }

  /** A name of lower-case letters and underscores is its own normal form. */
  lemma PlainName(s: string)
    requires PlainText(s)
    ensures Trim(Lower(s)) == s
  {
    assert Lower(s) == s by {
      forall i | 0 <= i < |s|
        ensures Lower(s)[i] == s[i]
      {
        assert LowerChar(s[i]) == s[i];
      }
    }
    if s != [] {
      assert !IsSpace(s[0]) && !IsSpace(s[|s| - 1]);
    }
    assert TrimStart(s) == s;
  }

  // ---------------------------------------------------------------------------
  // Group assignment

  /** The global counter document; its `count` may be missing. */
  datatype CounterDoc = CounterDoc(count: Option<int>)

  /** A missing counter, or a missing or zero count, counts as 0. */
  function CurrentCount(counter: Option<CounterDoc>): (n: int)
    ensures counter.None? || counter.value.count.None? ==> n == 0
    ensures counter.Some? && counter.value.count.Some? ==> n == counter.value.count.value
  {
    match counter
    case None => 0
    case Some(doc) => doc.count.GetOr(0)
  }

  /** Even counts go to group `'0'`, odd ones to `'1'`. */
  function GroupFor(count: int): (g: Group)
    ensures g == G0 <==> count % 2 == 0
  {
    if count % 2 == 0 then G0 else G1
  }

  /** Consecutive new participants land in different groups. */
  lemma GroupsAlternate(count: int)
    ensures GroupFor(count + 1) != GroupFor(count)
    ensures GroupFor(count + 2) == GroupFor(count)
  {
  }

  /** Number of group-`'0'` assignments among counts 0..n-1. */
  function GroupZeroCount(n: nat): (k: nat)
    ensures k <= n
  {
    if n == 0 then 0 else GroupZeroCount(n - 1) + (if GroupFor(n - 1) == G0 then 1 else 0)
  }

  /** The first `2n` participants are split evenly between the groups. */
  lemma {:induction false} GroupsBalanced(n: nat)
    ensures GroupZeroCount(2 * n) == n
  {
    if n > 0 {
      GroupsBalanced(n - 1);
      GroupsAlternate(2 * (n - 1));
      assert GroupFor(2 * (n - 1)) == G0;
    }
  }

  // ---------------------------------------------------------------------------
  // Image sequence

  /** `[1, 2, ..., n]`. */
  function OneTo(n: nat): (s: seq<int>)
    ensures |s| == n && forall i :: 0 <= i < n ==> s[i] == i + 1
  {
    seq(n, i => i + 1)
  }

  /** Every draw `j` for position `i` lies in `[0, i]`, as `Math.floor(Math.random() * (i + 1))` does. */
  predicate ShuffleDraws(draws: seq<int>, n: nat) {
    |draws| == n && forall i :: 0 < i < n ==> 0 <= draws[i] <= i
  }

  function Swap(s: seq<int>, i: nat, j: nat): (r: seq<int>)
    requires i < |s| && j < |s|
    ensures |r| == |s|
  {
    s[i := s[j]][j := s[i]]
  }

  /** Exchanging two positions keeps the elements. */
  lemma SwapPermutes(s: seq<int>, i: nat, j: nat)
    requires i < |s| && j < |s|
    ensures multiset(Swap(s, i, j)) == multiset(s)
  {
  }

  /** The array after the Fisher-Yates rounds for positions `i`, `i - 1`, ..., 1. */
  function Shuffled(s: seq<int>, draws: seq<int>, i: int): (r: seq<int>)
    requires -1 <= i < |s| && ShuffleDraws(draws, |s|)
    ensures |r| == |s|
    decreases i
  {
    if i <= 0 then s else Shuffled(Swap(s, i, draws[i]), draws, i - 1)
  }

  lemma ShuffledStep(s: seq<int>, draws: seq<int>, i: int)
    requires 0 < i < |s| && ShuffleDraws(draws, |s|)
    ensures Shuffled(s, draws, i) == Shuffled(Swap(s, i, draws[i]), draws, i - 1)
  {
  }

  /** The shuffle only swaps, so it keeps every element with its multiplicity. */
  lemma {:induction false} ShuffledPermutes(s: seq<int>, draws: seq<int>, i: int)
    requires -1 <= i < |s| && ShuffleDraws(draws, |s|)
    ensures multiset(Shuffled(s, draws, i)) == multiset(s)
    decreases i
  {
    if i > 0 {
      SwapPermutes(s, i, draws[i]);
      ShuffledPermutes(Swap(s, i, draws[i]), draws, i - 1);
    }
  }

  /** `[1..n]` holds each of 1..n exactly once and nothing else. */
  lemma {:induction false} OneToCounts(n: nat)
    ensures forall k :: multiset(OneTo(n))[k] == (if 1 <= k <= n then 1 else 0)
  {
    if n > 0 {
      OneToCounts(n - 1);
      assert OneTo(n) == OneTo(n - 1) + [n];
    }
  }

  /** A sequence holding each of 1..n exactly once. */
  predicate PermutationOfOneTo(s: seq<int>, n: nat) {
    multiset(s) == multiset(OneTo(n))
  }

  /** A permutation of 1..n has length n and holds exactly the values 1..n. */
  lemma PermutationContents(s: seq<int>, n: nat)
    requires PermutationOfOneTo(s, n)
    ensures |s| == n
    ensures forall k :: k in s <==> 1 <= k <= n
    ensures forall k :: multiset(s)[k] <= 1
  {
    OneToCounts(n);
    assert |multiset(s)| == |multiset(OneTo(n))|;
    forall k ensures k in s <==> 1 <= k <= n {
      assert k in s <==> k in multiset(s);
    }
  }

  /** The in-place Fisher-Yates loop: from the last position down to 1, swap with a drawn position. */
  method FisherYates(a: array<int>, draws: seq<int>)
    requires ShuffleDraws(draws, a.Length)
    modifies a
    ensures a[..] == Shuffled(old(a[..]), draws, a.Length - 1)
    ensures multiset(a[..]) == multiset(old(a[..]))
  {
    ghost var target := Shuffled(a[..], draws, a.Length - 1);
    var i := a.Length - 1;
    while i > 0
      invariant -1 <= i < a.Length
      invariant Shuffled(a[..], draws, i) == target
      decreases i
    {
      var j := draws[i];
      ghost var before := a[..];
      ShuffledStep(before, draws, i);
      a[i], a[j] := a[j], a[i];
      assert a[..] == Swap(before, i, j);
      i := i - 1;
    }
    ShuffledPermutes(old(a[..]), draws, a.Length - 1);
  }

  /** Number of images in every participant's pool. */
  const IMAGE_POOL: nat := 50

  /** The image sequence of a new participant: 1..50, shuffled. */
  method ImageSequence(draws: seq<int>) returns (sequence: seq<int>)
    requires ShuffleDraws(draws, IMAGE_POOL)
    ensures sequence == Shuffled(OneTo(IMAGE_POOL), draws, IMAGE_POOL - 1)
    ensures PermutationOfOneTo(sequence, IMAGE_POOL)
  {
    var allImages := new int[IMAGE_POOL](i => i + 1);
    assert allImages[..] == OneTo(IMAGE_POOL);
    FisherYates(allImages, draws);
    sequence := allImages[..];
  }

  /** A participant as created: phase 1, nothing completed, no questionnaires. */
  function NewParticipant(userID: string, group: Group, sequence: seq<int>): (p: Participant)
    ensures p.userID == userID && p.group == group && p.imageSequence == sequence
    ensures p.phase == Phase1 && p.completedTrials == map[] && p.phase1CompletedAt.None?
    ensures !p.hasDemographics && !p.hasBig5 && !p.hasIQ
  {
    Participant(userID, group, Phase1, sequence, None, map[], false, false, false)
  }

  // ---------------------------------------------------------------------------
  // Washout gate

  /** `Math.ceil(a / b)` for a positive divisor. */
  function CeilDiv(a: int, b: int): (q: int)
    requires b > 0
    ensures (q - 1) * b < a <= q * b
  {
    var q := (a + b - 1) / b;
    assert a + b - 1 == q * b + (a + b - 1) % b;
    q
  }

  /** The outcome of the washout check. */
  datatype Gate = Admit | Locked(daysLeft: int) | Unlock

  /** A phase-1 participant with a (non-zero) completion time. */
  predicate Phase1Done(p: Participant) {
    p.phase == Phase1 && p.phase1CompletedAt.Some? && p.phase1CompletedAt.value != 0
  }

  function Distance(a: int, b: int): (d: nat)
    ensures d == a - b || d == b - a
  {
    if a >= b then a - b else b - a
  }

  /**
   * Phase 1 finished less than 28 days ago (in either direction): locked
   * for the remaining days, rounded up. Finished longer ago: phase 2 opens.
   * Anyone else is let in as they are.
   */
  function WashoutGate(p: Participant, now: int): (g: Gate)
    ensures !Phase1Done(p) ==> g == Admit
    ensures Phase1Done(p) ==>
              (g.Locked? <==> Distance(now, p.phase1CompletedAt.value) < WASHOUT_PERIOD_MS)
              && (g.Unlock? <==> Distance(now, p.phase1CompletedAt.value) >= WASHOUT_PERIOD_MS)
    ensures g.Locked? ==> 1 <= g.daysLeft <= 28
    ensures g.Locked? ==>
              var rest := WASHOUT_PERIOD_MS - Distance(now, p.phase1CompletedAt.value);
              (g.daysLeft - 1) * DAY_MS < rest <= g.daysLeft * DAY_MS
  {
    if Phase1Done(p) then
      var diffTime := Distance(now, p.phase1CompletedAt.value);
      if diffTime < WASHOUT_PERIOD_MS then Locked(CeilDiv(WASHOUT_PERIOD_MS - diffTime, DAY_MS))
      else Unlock
    else Admit
  }

  /**
   * The days-left figure is exact to the day: coming back after that many
   * days opens phase 2, coming back a day earlier does not.
   */
  lemma DaysLeftIsExact(p: Participant, now: int)
    requires WashoutGate(p, now).Locked? && now >= p.phase1CompletedAt.value
    ensures WashoutGate(p, now + WashoutGate(p, now).daysLeft * DAY_MS).Unlock?
    ensures WashoutGate(p, now + (WashoutGate(p, now).daysLeft - 1) * DAY_MS).Locked?
  {
  }

  const WASHOUT_PREFIX := "Phase 1 complete. Please return in "
  const WASHOUT_SUFFIX := " days for Phase 2."

  /** `Phase 1 complete. Please return in ${daysLeft} days for Phase 2.` */
  function WashoutMessage(daysLeft: int): (m: string)
    ensures |m| > |WASHOUT_PREFIX| + |WASHOUT_SUFFIX|
    ensures m[..|WASHOUT_PREFIX|] == WASHOUT_PREFIX && m[|m| - |WASHOUT_SUFFIX|..] == WASHOUT_SUFFIX
  {
    WASHOUT_PREFIX + IntToString(daysLeft) + WASHOUT_SUFFIX
  }

  /** The message names the days left unambiguously: different counts give different messages. */
  lemma WashoutMessageInjective(a: int, b: int)
    requires WashoutMessage(a) == WashoutMessage(b)
    ensures a == b
  {
    SuffixCancel(WASHOUT_PREFIX + IntToString(a), WASHOUT_PREFIX + IntToString(b), WASHOUT_SUFFIX);
    PrefixCancel(WASHOUT_PREFIX, IntToString(a), IntToString(b));
    IntToStringInjective(a, b);
  }

  const MISSING_PARTICIPANT := "Identity found but Participant data missing!"

  /** `err.message || "Failed to login."`. */
  function ErrorText(message: string): (t: string)
    ensures t != ""
    ensures message != "" ==> t == message
  {
    if message == "" then "Failed to login." else message
  }

  // ---------------------------------------------------------------------------
  // Login

  /** The collections sign-in reads and writes. */
  datatype Db = Db(identities: map<string, string>, participants: map<string, Participant>, counter: Option<CounterDoc>)

  /** The signed-in participant or the error shown, and the collections afterwards. */
  datatype LoginOutcome = LoginOutcome(user: Option<Participant>, error: Option<string>, db: Db)

  /** The randomness a sign-in consumes: five id characters and 50 shuffle draws. */
  predicate LoginDraws(idDraws: seq<int>, shuffleDraws: seq<int>) {
    |idDraws| == 5 && ValidDraws(idDraws) && ShuffleDraws(shuffleDraws, IMAGE_POOL)
  }

  /** The participant the transaction returns, with the collections it leaves. */
  function Transaction(db: Db, key: string, idDraws: seq<int>, shuffleDraws: seq<int>): (r: (Option<Participant>, Db))
    requires LoginDraws(idDraws, shuffleDraws)
    ensures key in db.identities ==> r.1 == db
    ensures key in db.identities ==>
              (r.0.Some? <==> db.identities[key] in db.participants)
              && (r.0.Some? ==> r.0.value == db.participants[db.identities[key]])
    ensures key !in db.identities ==>
              var count := CurrentCount(db.counter);
              var id := UserId(GroupFor(count), idDraws);
              && r.0 == Some(NewParticipant(id, GroupFor(count), Shuffled(OneTo(IMAGE_POOL), shuffleDraws, IMAGE_POOL - 1)))
              && r.1.identities == db.identities[key := id]
              && r.1.participants == db.participants[id := r.0.value]
              && r.1.counter == Some(CounterDoc(Some(count + 1)))
  {
    if key in db.identities then
      var existing := db.identities[key];
      if existing !in db.participants then (None, db)
      else (Some(db.participants[existing]), db)
    else
      var currentCount := CurrentCount(db.counter);
      var group := GroupFor(currentCount);
      var newUserID := UserId(group, idDraws);
      var p := NewParticipant(newUserID, group, Shuffled(OneTo(IMAGE_POOL), shuffleDraws, IMAGE_POOL - 1));
      (Some(p), Db(db.identities[key := newUserID], db.participants[newUserID := p],
                   Some(CounterDoc(Some(currentCount + 1)))))
  }

  /**
   * The whole of `login`. A failure at any point leaves no user and an error
   * message; the collections keep whatever the transaction wrote.
   */
  function LoginSpec(db: Db, name: string, pin: string, now: int, idDraws: seq<int>, shuffleDraws: seq<int>,
                     signInError: Option<string>, updateError: Option<string>): (r: LoginOutcome)
    requires LoginDraws(idDraws, shuffleDraws)
    ensures r.user.None? <==> r.error.Some?
    ensures signInError.Some? ==> r == LoginOutcome(None, Some(ErrorText(signInError.value)), db)
  {
    if signInError.Some? then LoginOutcome(None, Some(ErrorText(signInError.value)), db)
    else AfterTransaction(Transaction(db, IdentityKey(name, pin), idDraws, shuffleDraws), now, updateError)
  }

  /**
   * What follows the transaction: no participant is an error; otherwise the
   * washout gate admits, locks out, or opens phase 2 (in the stored document
   * too) unless that update fails.
   */
  function AfterTransaction(t: (Option<Participant>, Db), now: int, updateError: Option<string>): (r: LoginOutcome)
    ensures r.user.None? <==> r.error.Some?
    ensures t.0.None? ==> r == LoginOutcome(None, Some(MISSING_PARTICIPANT), t.1)
    ensures t.0.Some? && WashoutGate(t.0.value, now).Admit? ==> r == LoginOutcome(t.0, None, t.1)
    ensures t.0.Some? && WashoutGate(t.0.value, now).Locked? ==>
              r == LoginOutcome(None, Some(WashoutMessage(WashoutGate(t.0.value, now).daysLeft)), t.1)
    ensures t.0.Some? && WashoutGate(t.0.value, now).Unlock? && updateError.None? ==>
              var p := t.0.value;
              && r.user == Some(p.(phase := Phase2)) && r.error.None?
              && r.db.identities == t.1.identities && r.db.counter == t.1.counter
              && (p.userID in t.1.participants ==>
                    r.db.participants == t.1.participants[p.userID := t.1.participants[p.userID].(phase := Phase2)])
              && (p.userID !in t.1.participants ==> r.db.participants == t.1.participants)
    ensures t.0.Some? && WashoutGate(t.0.value, now).Unlock? && updateError.Some? ==>
              r == LoginOutcome(None, Some(ErrorText(updateError.value)), t.1)
    ensures r.user.Some? ==> !Phase1Done(r.user.value)
  {
    match t.0
    case None => LoginOutcome(None, Some(MISSING_PARTICIPANT), t.1)
    case Some(p) =>
      match WashoutGate(p, now)
      case Admit => LoginOutcome(Some(p), None, t.1)
      case Locked(d) => LoginOutcome(None, Some(WashoutMessage(d)), t.1)
      case Unlock =>
        if updateError.Some? then LoginOutcome(None, Some(ErrorText(updateError.value)), t.1)
        else
          var participants := t.1.participants;
          var updated := if p.userID in participants
                         then participants[p.userID := participants[p.userID].(phase := Phase2)]
                         else participants;
          LoginOutcome(Some(p.(phase := Phase2)), None, t.1.(participants := updated))
  }

  /**
   * A first sign-in creates a phase-1 participant in the group of the
   * counter's parity, with a permutation of the 50 images, and counts it.
   */
  lemma NewParticipantCreated(db: Db, name: string, pin: string, now: int, idDraws: seq<int>,
                              shuffleDraws: seq<int>, updateError: Option<string>)
    requires LoginDraws(idDraws, shuffleDraws)
    requires IdentityKey(name, pin) !in db.identities
    ensures var r := LoginSpec(db, name, pin, now, idDraws, shuffleDraws, None, updateError);
            var count := CurrentCount(db.counter);
            && r.user.Some? && r.error.None?
            && r.user.value.group == GroupFor(count)
            && r.user.value.phase == Phase1 && r.user.value.completedTrials == map[]
            && PermutationOfOneTo(r.user.value.imageSequence, IMAGE_POOL)
            && r.db.identities[IdentityKey(name, pin)] == r.user.value.userID
            && r.db.counter == Some(CounterDoc(Some(count + 1)))
  {
    var key := IdentityKey(name, pin);
    var t := Transaction(db, key, idDraws, shuffleDraws);
    ShuffledPermutes(OneTo(IMAGE_POOL), shuffleDraws, IMAGE_POOL - 1);
    FreshParticipantAdmitted(t, now, updateError);
    assert LoginSpec(db, name, pin, now, idDraws, shuffleDraws, None, updateError) == AfterTransaction(t, now, updateError);
  }

  /** A participant who has not finished phase 1 is signed in as they are. */
  lemma FreshParticipantAdmitted(t: (Option<Participant>, Db), now: int, updateError: Option<string>)
    requires t.0.Some? && !Phase1Done(t.0.value)
    ensures AfterTransaction(t, now, updateError) == LoginOutcome(t.0, None, t.1)
  {
    assert WashoutGate(t.0.value, now) == Admit;
  }

  /**
   * Signing in again with the same name and PIN (in any letter case) finds
   * the participant the first sign-in created, whatever the new draws.
   */
  lemma SecondLoginFindsSameParticipant(db: Db, name: string, pin: string, now1: int, now2: int,
                                        d1: seq<int>, s1: seq<int>, d2: seq<int>, s2: seq<int>,
                                        u1: Option<string>, u2: Option<string>)
    requires LoginDraws(d1, s1) && LoginDraws(d2, s2)
    requires IdentityKey(name, pin) !in db.identities
    ensures var first := LoginSpec(db, name, pin, now1, d1, s1, None, u1);
            var second := LoginSpec(first.db, Lower(name), pin, now2, d2, s2, None, u2);
            second.user.Some? && second.user.value.userID == first.user.value.userID
            && second.db.identities == first.db.identities
  {
    IdentityKeyNormalises(name, pin);
    NewParticipantCreated(db, name, pin, now1, d1, s1, u1);
  }

  /** The sign-in state the provider exposes, and the collections behind it. */
  class AuthContext {
    var user: Option<Participant>
    var loading: bool
    var error: Option<string>
    var db: Db

    constructor (db: Db)
      ensures user.None? && !loading && error.None? && this.db == db
    {
      user := None;
      loading := false;
      error := None;
      this.db := db;
    }

    /**
     * The transaction: an existing identity yields its participant document
     * (or nothing when that is missing); a new one creates the participant,
     * the identity and the incremented counter.
     */
    method RunTransaction(identityDocId: string, idDraws: seq<int>, shuffleDraws: seq<int>)
      returns (participantData: Option<Participant>)
      requires LoginDraws(idDraws, shuffleDraws)
      modifies this
      ensures (participantData, db) == Transaction(old(db), identityDocId, idDraws, shuffleDraws)
      ensures user == old(user) && error == old(error) && loading == old(loading)
    {
      if identityDocId in db.identities {
        var assignedUserID := db.identities[identityDocId];
        if assignedUserID !in db.participants {
          return None;
        }
        return Some(db.participants[assignedUserID]);
      }
      var currentCount := CurrentCount(db.counter);
      var assignedGroup := GroupFor(currentCount);
      var newUserID := GenerateUserID(assignedGroup, idDraws);
      assert idDraws[..5] == idDraws;
      var finalSequence := ImageSequence(shuffleDraws);
      var newParticipant := NewParticipant(newUserID, assignedGroup, finalSequence);
      db := Db(db.identities[identityDocId := newUserID], db.participants[newUserID := newParticipant],
               Some(CounterDoc(Some(currentCount + 1))));
      participantData := Some(newParticipant);
    }

    /** `login`: the outcome `LoginSpec` describes; loading is over afterwards. */
    method Login(name: string, pin: string, now: int, idDraws: seq<int>, shuffleDraws: seq<int>,
                 signInError: Option<string>, updateError: Option<string>)
      requires LoginDraws(idDraws, shuffleDraws)
      modifies this
      ensures LoginOutcome(user, error, db)
              == LoginSpec(old(db), name, pin, now, idDraws, shuffleDraws, signInError, updateError)
      ensures !loading
    {
      loading := true;
      error := None;
      if signInError.Some? {
        error := Some(ErrorText(signInError.value));
        user := None;
        loading := false;
        return;
      }
      var found := RunTransaction(IdentityKey(name, pin), idDraws, shuffleDraws);
      ghost var t := (found, db);
      if found.None? {
        error := Some(MISSING_PARTICIPANT);
        user := None;
        loading := false;
        return;
      }
      var participantData := found.value;
      var gate := WashoutGate(participantData, now);
      if gate.Locked? {
        error := Some(WashoutMessage(gate.daysLeft));
        user := None;
        loading := false;
        return;
      }
      if gate.Unlock? {
        if updateError.Some? {
          error := Some(ErrorText(updateError.value));
          user := None;
          loading := false;
          return;
        }
        if participantData.userID in db.participants {
          var stored := db.participants[participantData.userID];
          db := db.(participants := db.participants[participantData.userID := stored.(phase := Phase2)]);
        }
        participantData := participantData.(phase := Phase2);
      }
      user := Some(participantData);
      loading := false;
      assert LoginOutcome(user, error, db) == AfterTransaction(t, now, updateError);
    }

    method Logout()
      modifies this
      ensures user.None? && loading == old(loading) && error == old(error) && db == old(db)
    {
      user := None;
    }
  }
}
