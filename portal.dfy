/**
 * The client portal's two computations: the project progress bar (which step the
 * project's status stands at, the fill percentage, which steps are lit, and the
 * step labels) and the list of vouchers shown on the loyalty panel.
 *
 * The HTML they are rendered into is not modelled; the percentage is an exact real.
 */
module Portal {
  import opened JsCore

  /** The steps the bar shows; "revisions" is a loop and has no step of its own. */
  const ProgressSteps: seq<string> := ["intake", "in_progress", "static_mix", "final_mix", "mastered", "review", "delivered"]

  /** `steps.indexOf(s)`: the first position of `s`, or -1. */
  function IndexOf(steps: seq<string>, s: string): (k: int)
    ensures -1 <= k < |steps|
    ensures k == -1 <==> s !in steps
    ensures 0 <= k ==> steps[k] == s && s !in steps[..k]
  {
    if steps == [] then -1
    else if steps[0] == s then 0
    else
      var k := IndexOf(steps[1..], s);
      if k == -1 then -1
      else
        assert steps[..k + 1] == [steps[0]] + steps[1..][..k];
        k + 1
  }

  /** The step a status stands at: its own, that of "review" for "revisions", or -1
      for a status the bar does not know. */
  function CurrentIndex(status: string): (k: int)
    ensures -1 <= k < |ProgressSteps|
    ensures k == -1 <==> status !in ProgressSteps && status != "revisions"
    ensures 0 <= k ==> ProgressSteps[k] == if status == "revisions" then "review" else status
  {
    if status == "revisions" then IndexOf(ProgressSteps, "review") else IndexOf(ProgressSteps, status)
  }

  /** The fill of the bar in percent for a step position: the step's share of the way
      from the first step to the last, and 0 for -1. */
  function Fill(k: int): (p: real)
    requires -1 <= k < |ProgressSteps|
    ensures 0.0 <= p <= 100.0
    ensures p == 100.0 <==> k == |ProgressSteps| - 1
    ensures k <= 0 ==> p == 0.0
  {
    if k >= 0 then (k as real / (|ProgressSteps| - 1) as real) * 100.0 else 0.0
  }

  /** The fill of the bar for a status. */
  function Percent(status: string): (p: real)
    ensures 0.0 <= p <= 100.0
    ensures p == 100.0 <==> status == "delivered"
    ensures status !in ProgressSteps && status != "revisions" ==> p == 0.0
  {
    Fill(CurrentIndex(status))
  }

  /** `step.replace('_', ' ')`: only the first underscore becomes a space. */
  function Label(step: string): (r: string)
    ensures |r| == |step|
    ensures '_' !in step ==> r == step
  {
    ReplaceFirst(step, '_', " ")
  }

  datatype StepView = StepView(caption: string, lit: bool)

  /** The steps as rendered: each labelled, and lit up to the current one. */
  function Steps(status: string): (r: seq<StepView>)
    ensures |r| == |ProgressSteps|
  {
    seq(|ProgressSteps|, i requires 0 <= i < |ProgressSteps| => StepView(Label(ProgressSteps[i]), i <= CurrentIndex(status)))
  }

  /** The lit steps are exactly the first `CurrentIndex + 1`: no gap, nothing lit past
      the current step. */
  lemma LitStepsArePrefix(status: string)
    ensures forall i :: 0 <= i < |ProgressSteps| ==> (Steps(status)[i].lit <==> i <= CurrentIndex(status))
    ensures forall i, j :: 0 <= i <= j < |ProgressSteps| && Steps(status)[j].lit ==> Steps(status)[i].lit
  {
  }

  /** Every status shows the same captions, the step names with their first
      underscore turned into a space; only which steps are lit depends on it. */
  lemma StepCaptions(status: string, other: string)
    ensures forall i :: 0 <= i < |ProgressSteps| ==> Steps(status)[i].caption == Label(ProgressSteps[i])
    ensures forall i :: 0 <= i < |ProgressSteps| ==> Steps(status)[i].caption == Steps(other)[i].caption
  {
  }

  /** "revisions" is shown exactly as "review". */
  lemma RevisionsShownAsReview()
    ensures Steps("revisions") == Steps("review")
    ensures Percent("revisions") == Percent("review")
  {
  }

  /** "delivered" fills the bar and lights every step. */
  lemma DeliveredCompletesBar()
    ensures Percent("delivered") == 100.0
    ensures forall i :: 0 <= i < |ProgressSteps| ==> Steps("delivered")[i].lit
  {
  }

  /** An unknown status shows an empty bar with no step lit; "intake" also shows 0%,
      but its first step is lit. */
  lemma UnknownStatusEmptyBar(status: string)
    requires status !in ProgressSteps && status != "revisions"
    ensures Percent(status) == 0.0
    ensures forall i :: 0 <= i < |ProgressSteps| ==> !Steps(status)[i].lit
    ensures Percent("intake") == 0.0 && Steps("intake")[0].lit
  {
  }

  /** A step name with one underscore is shown with a space in its place, so none of
      "in_progress", "static_mix" and "final_mix" keeps an underscore. */
  lemma OneUnderscoreBecomesSpace(a: string, b: string)
    requires '_' !in a && '_' !in b
    ensures Label(a + "_" + b) == a + " " + b
    ensures '_' !in Label(a + "_" + b)
  {
    var s := a + "_" + b;
    assert s[..|a|] == a && s[|a|] == '_' && s[|a| + 1..] == b;
    ReplaceFirstSplits(s, '_', " ", |a|);
  }

  /** A voucher as the loyalty endpoint returns it. */
  datatype Voucher = Voucher(code: string, description: string, isRedeemed: bool)

  /** The loyalty panel's list: the vouchers listed, or the "No active vouchers." line. */
  datatype VoucherPanel = Listed(items: seq<Voucher>) | NoActiveVouchers

  /** The vouchers not yet redeemed, in their order. */
  function Unredeemed(vs: seq<Voucher>): (r: seq<Voucher>)
    ensures |r| <= |vs|
    ensures forall v :: v in r <==> v in vs && !v.isRedeemed
    ensures forall v :: multiset(r)[v] == if v.isRedeemed then 0 else multiset(vs)[v]
    ensures vs != [] && !vs[0].isRedeemed ==> r != [] && r[0] == vs[0]
  {
    if vs == [] then []
    else
      assert vs == [vs[0]] + vs[1..];
      if vs[0].isRedeemed then Unredeemed(vs[1..])
      else [vs[0]] + Unredeemed(vs[1..])
  }

  /** The filter keeps the order: the list of a concatenation is the lists of its
      parts, one after the other. */
  lemma {:induction false} UnredeemedKeepsOrder(a: seq<Voucher>, b: seq<Voucher>)
    ensures Unredeemed(a + b) == Unredeemed(a) + Unredeemed(b)
  {
    if a == [] {
      assert a + b == b;
    } else {
      assert (a + b)[0] == a[0] && (a + b)[1..] == a[1..] + b;
      UnredeemedKeepsOrder(a[1..], b);
    }
  }

  /** The panel for the `vouchers` field of the reply (absent when `None`). */
  function Panel(vouchers: Option<seq<Voucher>>): (p: VoucherPanel)
    ensures p == NoActiveVouchers <==> vouchers.None? || vouchers.value == []
    ensures p.Listed? ==> forall v :: v in p.items <==> v in vouchers.value && !v.isRedeemed
  {
    if vouchers.Some? && |vouchers.value| > 0 then Listed(Unredeemed(vouchers.value)) else NoActiveVouchers
  }

  /** When every voucher is redeemed nothing is listed and the placeholder is not shown
      either. */
  lemma AllRedeemedShowsNothing(vs: seq<Voucher>)
    requires vs != [] && forall v :: v in vs ==> v.isRedeemed
    ensures Panel(Some(vs)).Listed? && forall v :: v !in Panel(Some(vs)).items
  {
  }
}
