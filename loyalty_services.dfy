/**
 * The loyalty milestone engine: when a project is delivered, the user's
 * completed-project counter is upserted, the active `project_milestone`
 * promotions for the new count are looked up, and at most one voucher is
 * granted and announced by e-mail.
 *
 * The `loyalty`, `promotions`, `vouchers` and `users` tables and the mail
 * sent are the fields of a `LoyaltyStore`; `Tables` is their value. Time is an
 * integer number of milliseconds; `Date.now()` and the database's `NOW()` are
 * the same `now`. Whether the voucher insert and the mail succeed are inputs.
 */
module Loyalty {
  import opened JsCore

  type UserId = nat

  datatype LoyaltyRow = LoyaltyRow(projectsCompleted: nat, lastProjectCompletedAt: Option<int>)

  datatype Promotion = Promotion(id: nat, name: string, kind: string, milestoneCount: int,
                                 voucherCodePrefix: string, description: string, isActive: bool)

  /** A voucher row; it expires `validYears` calendar years after `issuedAt`. */
  datatype Voucher = Voucher(userId: UserId, promotionId: nat, code: string, description: string,
                             issuedAt: int, validYears: nat, isRedeemed: bool)

  datatype User = User(email: string, name: string)

  datatype Email = Email(to: string, subject: string, userName: string, projectsCompleted: nat,
                         voucherCode: string, voucherDescription: string)

  datatype Tables = Tables(loyalty: map<UserId, LoyaltyRow>, promotions: seq<Promotion>,
                           vouchers: seq<Voucher>, users: map<UserId, User>, outbox: seq<Email>)

  /** How one completion event ended. `notified` is false when the user row is missing
      or the mail failed; both happen after the voucher is stored. */
  datatype Completion =
    | NoMilestone(count: nat)
    | VoucherInsertFailed(count: nat)
    | Granted(count: nat, voucher: Voucher, notified: bool)

  const MilestoneType := "project_milestone"
  const CodeLimit := 50
  const VoucherValidYears := 1
  const RewardSubject := "You've earned a reward!"

  /** The counter upsert: a missing row is created at 1, an existing one goes up by one. */
  function Upserted(loyalty: map<UserId, LoyaltyRow>, userId: UserId, now: int): (r: map<UserId, LoyaltyRow>)
    ensures userId in r && r[userId].lastProjectCompletedAt == Some(now)
    ensures r[userId].projectsCompleted == if userId in loyalty then loyalty[userId].projectsCompleted + 1 else 1
    ensures r.Keys == loyalty.Keys + {userId}
    ensures forall u :: u in loyalty && u != userId ==> r[u] == loyalty[u]
  {
    var count := if userId in loyalty then loyalty[userId].projectsCompleted + 1 else 1;
    loyalty[userId := LoyaltyRow(count, Some(now))]
  }

  /** The signup insert `ON CONFLICT (user_id) DO NOTHING`: a missing row is created
      with the column defaults, an existing row is left as it is. */
  function WithRow(loyalty: map<UserId, LoyaltyRow>, userId: UserId): (r: map<UserId, LoyaltyRow>)
    ensures r.Keys == loyalty.Keys + {userId}
    ensures forall u :: u in loyalty ==> r[u] == loyalty[u]
    ensures userId !in loyalty ==> r[userId] == LoyaltyRow(0, None)
  {
    if userId in loyalty then loyalty else loyalty[userId := LoyaltyRow(0, None)]
  }

  /** Inserting the row twice is the same as inserting it once, and a completion after
      signup counts from zero. */
  lemma WithRowThenComplete(loyalty: map<UserId, LoyaltyRow>, userId: UserId, now: int)
    requires userId !in loyalty
    ensures WithRow(WithRow(loyalty, userId), userId) == WithRow(loyalty, userId)
    ensures Upserted(WithRow(loyalty, userId), userId, now)[userId].projectsCompleted == 1
    ensures Upserted(WithRow(loyalty, userId), userId, now) == Upserted(loyalty, userId, now)
  {
  }

  predicate MatchesMilestone(p: Promotion, count: int)
  {
    p.kind == MilestoneType && p.milestoneCount == count && p.isActive
  }

  /** The promotion query for a count: active `project_milestone` rows whose milestone
      equals the count exactly, in table order. */
  function MilestonePromotions(promotions: seq<Promotion>, count: int): (r: seq<Promotion>)
    ensures |r| <= |promotions|
    ensures forall p :: p in r <==> p in promotions && MatchesMilestone(p, count)
    ensures r == [] <==> FirstMatch(promotions, count) == |promotions|
    ensures r != [] ==> r[0] == promotions[FirstMatch(promotions, count)]
  {
    if promotions == [] then []
    else if MatchesMilestone(promotions[0], count) then [promotions[0]] + MilestonePromotions(promotions[1..], count)
    else MilestonePromotions(promotions[1..], count)
  }

  /** The index of the first promotion that matches the count (|promotions| if none). */
  function FirstMatch(promotions: seq<Promotion>, count: int): (k: nat)
    ensures k <= |promotions|
    ensures forall i :: 0 <= i < k ==> !MatchesMilestone(promotions[i], count)
    ensures k < |promotions| ==> MatchesMilestone(promotions[k], count)
  {
    if promotions == [] then 0
    else if MatchesMilestone(promotions[0], count) then 0
    else 1 + FirstMatch(promotions[1..], count)
  }

  /** The untruncated code: `${prefix}-${userId}-${Date.now()}`. */
  function FullCode(prefix: string, userId: UserId, now: nat): (c: string)
    ensures |c| == |prefix| + |Decimal(userId)| + |Decimal(now)| + 2
    ensures c[..|prefix| + 1] == prefix + "-"
    ensures c[|c| - |Decimal(now)| - 1..] == "-" + Decimal(now)
  {
    prefix + "-" + Decimal(userId) + "-" + Decimal(now)
  }

  /** The voucher code: the first 50 characters of the full code. */
  function VoucherCode(prefix: string, userId: UserId, now: nat): (code: string)
    ensures |code| <= CodeLimit
    ensures code <= FullCode(prefix, userId, now)
    ensures |FullCode(prefix, userId, now)| <= CodeLimit ==> code == FullCode(prefix, userId, now)
  {
    Take(FullCode(prefix, userId, now), CodeLimit)
  }

  lemma DigitsThenDash(x: string, y: string, i: nat)
    requires AllDigits(x) && i <= |x|
    ensures (x + "-" + y)[i] == '-' <==> i == |x|
  {
    if i < |x| {
      assert (x + "-" + y)[i] == x[i];
    }
  }

  lemma {:induction false} DashSplit(a: string, b: string, c: string, d: string)
    requires AllDigits(a) && AllDigits(c) && a + "-" + b == c + "-" + d
    ensures a == c && b == d
  {
    var s := a + "-" + b;
    if |a| < |c| {
      DigitsThenDash(a, b, |a|);
      DigitsThenDash(c, d, |a|);
      assert false;
    } else if |c| < |a| {
      DigitsThenDash(a, b, |c|);
      DigitsThenDash(c, d, |c|);
      assert false;
    } else {
      assert a == s[..|a|] == c;
      assert b == s[|a| + 1..] == d;
    }
  }

  /** Untruncated codes of one promotion never collide: the code determines the user
      and the grant time. */
  lemma VoucherCodesDistinct(prefix: string, u1: UserId, t1: nat, u2: UserId, t2: nat)
    requires |FullCode(prefix, u1, t1)| <= CodeLimit && |FullCode(prefix, u2, t2)| <= CodeLimit
    requires VoucherCode(prefix, u1, t1) == VoucherCode(prefix, u2, t2)
    ensures u1 == u2 && t1 == t2
  {
    var r1 := Decimal(u1) + "-" + Decimal(t1);
    var r2 := Decimal(u2) + "-" + Decimal(t2);
    assert FullCode(prefix, u1, t1) == (prefix + "-") + r1;
    assert FullCode(prefix, u2, t2) == (prefix + "-") + r2;
    assert r1 == FullCode(prefix, u1, t1)[|prefix| + 1..];
    assert r2 == FullCode(prefix, u2, t2)[|prefix| + 1..];
    DashSplit(Decimal(u1), Decimal(t1), Decimal(u2), Decimal(t2));
    DecimalInjective(u1, u2);
    DecimalInjective(t1, t2);
  }

  /** Truncation can make codes collide: with a prefix of 50 characters or more every
      user and every instant gets the same code. */
  lemma LongPrefixCodesCollide(prefix: string, u1: UserId, t1: nat, u2: UserId, t2: nat)
    requires |prefix| >= CodeLimit
    ensures VoucherCode(prefix, u1, t1) == VoucherCode(prefix, u2, t2) == prefix[..CodeLimit]
  {
    assert FullCode(prefix, u1, t1)[..CodeLimit] == prefix[..CodeLimit];
    assert FullCode(prefix, u2, t2)[..CodeLimit] == prefix[..CodeLimit];
  }

  /** The voucher row granted for a promotion. */
  function VoucherFor(p: Promotion, userId: UserId, now: nat): (v: Voucher)
    ensures v.userId == userId && v.promotionId == p.id && v.description == p.description
    ensures v.issuedAt == now && v.validYears == 1 && !v.isRedeemed
    ensures |v.code| <= CodeLimit && v.code <= FullCode(p.voucherCodePrefix, userId, now)
  {
    Voucher(userId, p.id, VoucherCode(p.voucherCodePrefix, userId, now), p.description, now, VoucherValidYears, false)
  }

  /** `getUserById(userId)`: the user's e-mail and name, if the row exists. */
  function GetUserById(users: map<UserId, User>, userId: UserId): (r: Option<User>)
    ensures r.Some? <==> userId in users
    ensures r.Some? ==> r.value == users[userId]
  {
    if userId in users then Some(users[userId]) else None
  }

  /** `handleProjectCompletion(userId)` as a function of the tables. */
  function Complete(t: Tables, userId: UserId, now: nat, insertOk: bool, mailOk: bool): (r: (Tables, Completion))
    // the counter always moves by exactly one; promotions and users are only read
    ensures r.0.loyalty == Upserted(t.loyalty, userId, now)
    ensures r.0.promotions == t.promotions && r.0.users == t.users
    ensures r.1.count == r.0.loyalty[userId].projectsCompleted
    // no match: only the counter changed
    ensures MilestonePromotions(t.promotions, r.1.count) == [] <==> r.1.NoMilestone?
    // a match is granted exactly when the voucher insert succeeds
    ensures r.1.VoucherInsertFailed? <==> MilestonePromotions(t.promotions, r.1.count) != [] && !insertOk
    ensures r.1.Granted? <==> MilestonePromotions(t.promotions, r.1.count) != [] && insertOk
    // the user is notified exactly when the user row exists and the mailer works
    ensures r.1.Granted? ==> (r.1.notified <==> userId in t.users && mailOk)
    ensures !r.1.Granted? ==> r.0.vouchers == t.vouchers && r.0.outbox == t.outbox
    // a match: at most one voucher, for the first matching promotion
    ensures r.1.Granted? ==>
              r.0.vouchers == t.vouchers + [r.1.voucher] &&
              r.1.voucher == VoucherFor(MilestonePromotions(t.promotions, r.1.count)[0], userId, now)
    // the mail is sent only after the voucher is stored, and carries its code and description
    ensures |r.0.outbox| <= |t.outbox| + 1
    ensures |r.0.outbox| == |t.outbox| + 1 <==> r.1.Granted? && r.1.notified
    ensures r.1.Granted? && r.1.notified ==>
              userId in t.users &&
              r.0.outbox[|t.outbox|].to == t.users[userId].email &&
              r.0.outbox[|t.outbox|].voucherCode == r.1.voucher.code &&
              r.0.outbox[|t.outbox|].voucherDescription == r.1.voucher.description
  {
    var loyalty := Upserted(t.loyalty, userId, now);
    var count := loyalty[userId].projectsCompleted;
    var matches := MilestonePromotions(t.promotions, count);
    if matches == [] then
      (t.(loyalty := loyalty), NoMilestone(count))
    else if !insertOk then
      (t.(loyalty := loyalty), VoucherInsertFailed(count))
    else
      var v := VoucherFor(matches[0], userId, now);
      var user := GetUserById(t.users, userId);
      if user.Some? && mailOk then
        var mail := Email(user.value.email, RewardSubject, user.value.name, count, v.code, v.description);
        (t.(loyalty := loyalty, vouchers := t.vouchers + [v], outbox := t.outbox + [mail]), Granted(count, v, true))
      else
        (t.(loyalty := loyalty, vouchers := t.vouchers + [v]), Granted(count, v, false))
  }

  /** Among the counts `from + 1 .. from + n`, how many have a matching promotion. */
  function MilestoneHits(promotions: seq<Promotion>, from: nat, n: nat): nat
  {
    if n == 0 then 0
    else MilestoneHits(promotions, from, n - 1) + Hit(promotions, from + n)
  }

  /** 1 when some promotion matches the count, else 0. */
  function Hit(promotions: seq<Promotion>, count: nat): nat
  {
    if FirstMatch(promotions, count) < |promotions| then 1 else 0
  }

  /** The voucher a completion that reaches `count` at `now` grants: the first matching
      promotion's, or none. */
  function Grant(promotions: seq<Promotion>, userId: UserId, count: nat, now: nat): seq<Voucher>
  {
    var k := FirstMatch(promotions, count);
    if k < |promotions| then [VoucherFor(promotions[k], userId, now)] else []
  }

  /** The vouchers granted by completions at `times`, counting on from `from`: for each
      count reached in turn, the voucher of its first matching promotion, issued at
      that completion's instant. */
  function MilestoneVouchers(promotions: seq<Promotion>, userId: UserId, from: nat, times: seq<nat>): seq<Voucher>
    decreases |times|
  {
    if times == [] then []
    else Grant(promotions, userId, from + 1, times[0]) + MilestoneVouchers(promotions, userId, from + 1, times[1..])
  }

  /** Completion events for one user, applied one after another. */
  function CompleteAll(t: Tables, userId: UserId, times: seq<nat>): Tables
    decreases |times|
  {
    if times == [] then t
    else CompleteAll(Complete(t, userId, times[0], true, true).0, userId, times[1..])
  }

  function CountOf(t: Tables, userId: UserId): nat
  {
    if userId in t.loyalty then t.loyalty[userId].projectsCompleted else 0
  }

  /** `n` sequential completions advance the counter by exactly `n` and leave the
      promotions alone. */
  lemma {:induction false} CompletionsAdvanceCounter(t: Tables, userId: UserId, times: seq<nat>)
    ensures CountOf(CompleteAll(t, userId, times), userId) == CountOf(t, userId) + |times|
    ensures CompleteAll(t, userId, times).promotions == t.promotions
    decreases |times|
  {
    if times != [] {
      CompletionStep(t, userId, times[0]);
      CompletionsAdvanceCounter(Complete(t, userId, times[0], true, true).0, userId, times[1..]);
    }
  }

  /** `n` sequential completions grant one voucher for each count reached on the way
      that has a matching promotion, no more and no fewer. */
  lemma {:induction false} CompletionsGrantEachMilestoneOnce(t: Tables, userId: UserId, times: seq<nat>)
    ensures CompleteAll(t, userId, times).vouchers ==
              t.vouchers + MilestoneVouchers(t.promotions, userId, CountOf(t, userId), times)
    ensures |CompleteAll(t, userId, times).vouchers| ==
              |t.vouchers| + MilestoneHits(t.promotions, CountOf(t, userId), |times|)
  {
    CompletionsAppendVouchers(t, userId, times);
    CompletionsCountVouchers(t, userId, times);
  }

  /** The vouchers appended by sequential completions, in order. */
  lemma {:induction false} CompletionsAppendVouchers(t: Tables, userId: UserId, times: seq<nat>)
    ensures CompleteAll(t, userId, times).vouchers ==
              t.vouchers + MilestoneVouchers(t.promotions, userId, CountOf(t, userId), times)
    decreases |times|
  {
    if times != [] {
      var t1 := Complete(t, userId, times[0], true, true).0;
      var c := CountOf(t, userId);
      var g := Grant(t.promotions, userId, c + 1, times[0]);
      var rest := MilestoneVouchers(t.promotions, userId, c + 1, times[1..]);
      CompletionStep(t, userId, times[0]);
      CompletionsAppendVouchers(t1, userId, times[1..]);
      assert CompleteAll(t, userId, times) == CompleteAll(t1, userId, times[1..]);
      assert MilestoneVouchers(t.promotions, userId, c, times) == g + rest;
      ConcatAssociates(t.vouchers, g, rest);
    }
  }

  lemma ConcatAssociates(a: seq<Voucher>, b: seq<Voucher>, c: seq<Voucher>)
    ensures (a + b) + c == a + (b + c)
  {
  }

  /** The number of vouchers appended by sequential completions. */
  lemma {:induction false} CompletionsCountVouchers(t: Tables, userId: UserId, times: seq<nat>)
    ensures |CompleteAll(t, userId, times).vouchers| ==
              |t.vouchers| + MilestoneHits(t.promotions, CountOf(t, userId), |times|)
    decreases |times|
  {
    if times != [] {
      var t1 := Complete(t, userId, times[0], true, true).0;
      var c, n := CountOf(t, userId), |times| - 1;
      assert CompleteAll(t, userId, times) == CompleteAll(t1, userId, times[1..]);
      CompletionStep(t, userId, times[0]);
      CompletionsCountVouchers(t1, userId, times[1..]);
      HitsShift(t.promotions, c, n);
    }
  }

  /** One successful completion: the counter goes up by one and a voucher is added
      exactly when the new count has a matching promotion. */
  lemma CompletionStep(t: Tables, userId: UserId, now: nat)
    ensures var t1 := Complete(t, userId, now, true, true).0;
      CountOf(t1, userId) == CountOf(t, userId) + 1 &&
      |t1.vouchers| == |t.vouchers| + Hit(t.promotions, CountOf(t, userId) + 1) &&
      t1.vouchers == t.vouchers + Grant(t.promotions, userId, CountOf(t, userId) + 1, now) &&
      t1.promotions == t.promotions
  {
  }

  lemma {:induction false} HitsShift(promotions: seq<Promotion>, from: nat, n: nat)
    ensures MilestoneHits(promotions, from, n + 1) == Hit(promotions, from + 1) + MilestoneHits(promotions, from + 1, n)
  {
    if n > 0 {
      HitsShift(promotions, from, n - 1);
      calc {
        MilestoneHits(promotions, from, n + 1);
        MilestoneHits(promotions, from, n) + Hit(promotions, from + (n + 1));
        Hit(promotions, from + 1) + MilestoneHits(promotions, from + 1, n - 1) + Hit(promotions, (from + 1) + n);
        Hit(promotions, from + 1) + MilestoneHits(promotions, from + 1, n);
      }
    }
  }

  class LoyaltyStore {
    var loyalty: map<UserId, LoyaltyRow>
    var promotions: seq<Promotion>
    var vouchers: seq<Voucher>
    var users: map<UserId, User>
    var outbox: seq<Email>

    function Snapshot(): Tables
      reads this
    {
      Tables(loyalty, promotions, vouchers, users, outbox)
    }

    constructor (promotions: seq<Promotion>, users: map<UserId, User>)
      ensures Snapshot() == Tables(map[], promotions, [], users, [])
    {
      this.loyalty := map[];
      this.promotions := promotions;
      this.vouchers := [];
      this.users := users;
      this.outbox := [];
    }

    /** Signup's `INSERT INTO loyalty(user_id) ... ON CONFLICT (user_id) DO NOTHING`:
        a fresh row starts at zero, an existing row is left alone. */
    method EnsureRow(userId: UserId)
      modifies this
      ensures loyalty == WithRow(old(loyalty), userId)
      ensures promotions == old(promotions) && vouchers == old(vouchers)
      ensures users == old(users) && outbox == old(outbox)
    {
      if userId !in loyalty {
        loyalty := loyalty[userId := LoyaltyRow(0, None)];
      }
    }

    /** `handleProjectCompletion(userId)`. */
    method HandleProjectCompletion(userId: UserId, now: nat, insertOk: bool, mailOk: bool) returns (c: Completion)
      modifies this
      ensures (Snapshot(), c) == Complete(old(Snapshot()), userId, now, insertOk, mailOk)
    {
      // 1. increment the counter
      var count := if userId in loyalty then loyalty[userId].projectsCompleted + 1 else 1;
      loyalty := loyalty[userId := LoyaltyRow(count, Some(now))];
      // 2. active milestone promotions for the new count
      var matches := MilestonePromotions(promotions, count);
      if matches == [] {
        return NoMilestone(count);
      }
      var promotion := matches[0];
      var user := GetUserById(users, userId);
      // 3. grant the voucher
      if !insertOk {
        return VoucherInsertFailed(count);
      }
      var voucher := VoucherFor(promotion, userId, now);
      vouchers := vouchers + [voucher];
      // 4. notify
      if user.Some? && mailOk {
        outbox := outbox + [Email(user.value.email, RewardSubject, user.value.name, count, voucher.code, voucher.description)];
        c := Granted(count, voucher, true);
      } else {
        c := Granted(count, voucher, false);
      }
    }
  }
}
