/**
 * The achievements panel (frontend/src/components/Rewards/RewardComponent.jsx):
 * counters read from `users/<uid>/rewards` and the badges they earn.
 */
module Rewards {
  import opened Wrappers

  /** A reward document: its id and the numeric `count` and `points` fields, absent as None. */
  datatype RewardDoc = RewardDoc(id: string, count: Option<int>, points: Option<int>)

  datatype Totals = Totals(earlybird: int, nightowl: int, points: int)

  const NoRewards := Totals(0, 0, 0)

  /** `value || 0`: an absent or zero field reads as 0. */
  function OrZero(v: Option<int>): (r: int)
    ensures v.Some? ==> r == v.value
    ensures v.None? ==> r == 0
  {
    if v.Some? && v.value != 0 then v.value else 0
  }

  /** The last document with the given id, which is the one whose assignment survives the loop. */
  function LastWithId(docs: seq<RewardDoc>, id: string): (r: Option<RewardDoc>)
    ensures r.Some? ==> r.value in docs && r.value.id == id
    ensures r.None? <==> forall d :: d in docs ==> d.id != id
  {
    if docs == [] then None
    else if docs[|docs| - 1].id == id then Some(docs[|docs| - 1])
    else
      assert docs == docs[..|docs| - 1] + [docs[|docs| - 1]];
      LastWithId(docs[..|docs| - 1], id)
  }

  function CountOf(d: Option<RewardDoc>): int { if d.Some? then OrZero(d.value.count) else 0 }

  function PointsOf(d: Option<RewardDoc>): int { if d.Some? then OrZero(d.value.points) else 0 }

  /** What the snapshot loop computes: each counter from the last document of its id, 0 when there is none. */
  function Expected(docs: seq<RewardDoc>): Totals
  {
    Totals(CountOf(LastWithId(docs, "earlybird")), CountOf(LastWithId(docs, "nightowl")),
           PointsOf(LastWithId(docs, "points")))
  }

  /** snap.forEach: start from zeros and let each earlybird, nightowl or points document set its counter. */
  method Tally(docs: seq<RewardDoc>) returns (next: Totals)
    ensures next == Expected(docs)
    ensures (forall d :: d in docs ==> d.id !in {"earlybird", "nightowl", "points"}) ==> next == NoRewards
  {
    next := NoRewards;
    var i := 0;
    while i < |docs|
      invariant 0 <= i <= |docs|
      invariant next == Expected(docs[..i])
    {
      var doc := docs[i];
      assert docs[..i + 1][..i] == docs[..i];
      if doc.id == "earlybird" {
        next := next.(earlybird := OrZero(doc.count));
      }
      if doc.id == "nightowl" {
        next := next.(nightowl := OrZero(doc.count));
      }
      if doc.id == "points" {
        next := next.(points := OrZero(doc.points));
      }
      i := i + 1;
    }
    assert docs[..|docs|] == docs;
  }

  datatype Badge = EarlyBird | NightOwl | FocusPearl

  /** The badge list: Early Bird past 5, Night Owl past 5, Focus Pearl past 40 points, in that order. */
  function Badges(t: Totals): (r: seq<Badge>)
    ensures EarlyBird in r <==> t.earlybird > 5
    ensures NightOwl in r <==> t.nightowl > 5
    ensures FocusPearl in r <==> t.points > 40
    ensures |r| <= 3
    ensures forall i, j :: 0 <= i < j < |r| ==> Rank(r[i]) < Rank(r[j])
  {
    (if t.earlybird > 5 then [EarlyBird] else []) +
    (if t.nightowl > 5 then [NightOwl] else []) +
    (if t.points > 40 then [FocusPearl] else [])
  }

  function Rank(b: Badge): nat
  {
    match b
    case EarlyBird => 0
    case NightOwl => 1
    case FocusPearl => 2
  }

  function Label(b: Badge): string
  {
    match b
    case EarlyBird => "Early Bird"
    case NightOwl => "Night Owl"
    case FocusPearl => "Focus Pearl"
  }

  datatype Display = LoadingText | BadgeCards(badges: seq<Badge>) | NoBadgesEarned

  /** One card per badge when any qualifies, "No Badges Earned" exactly when none does. */
  function Render(loading: bool, t: Totals): (r: Display)
    ensures loading <==> r == LoadingText
    ensures !loading ==> (r == NoBadgesEarned <==> t.earlybird <= 5 && t.nightowl <= 5 && t.points <= 40)
    ensures r.BadgeCards? ==> r.badges == Badges(t) && r.badges != []
  {
    if loading then LoadingText
    else
      var items := Badges(t);
      if |items| > 0 then BadgeCards(items) else NoBadgesEarned
  }

  class RewardPanel {
    var rewards: Totals
    var loading: bool

    constructor ()
      ensures rewards == NoRewards && loading
    {
      rewards, loading := NoRewards, true;
    }

    /**
     * The load effect: without a user it does nothing, so the panel stays
     * loading; otherwise the tallied counters on success, the old ones on a
     * failed read, and loading ends.
     */
    method Load(userId: string, snap: Outcome<seq<RewardDoc>>)
      modifies this
      ensures userId == "" ==> rewards == old(rewards) && loading == old(loading)
      ensures userId != "" ==> !loading
      ensures userId != "" && snap.Resolved? ==> rewards == Expected(snap.value)
      ensures userId != "" && snap.Rejected? ==> rewards == old(rewards)
    {
      if userId == "" {
        return;
      }
      if snap.Resolved? {
        var next := Tally(snap.value);
        rewards := next;
      }
      loading := false;
    }

    function Shown(): Display
      reads this
    {
      Render(loading, rewards)
    }
  }
}
