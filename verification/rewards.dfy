/** The rewards page: listing the rewards whose menu items resolve, and
    redeeming one into the stored cart as a locked, free line. */
module Rewards {
  import opened Wrappers
  import opened CartModel
  import opened Pricing

  /** A menu document's fields that the reward flow reads. */
  datatype MenuEntry = MenuEntry(name: string, makingTime: Option<int>)

  /** A menu item resolved for a reward: its id and its document's fields. */
  datatype MenuItem = MenuItem(id: string, name: string, makingTime: Option<int>)

  /** A reward document's `menuItemId` field: a list of menu ids, or some
      value that is not an array. */
  datatype MenuItemIds = IdList(ids: seq<string>) | NotAList

  /** A reward document as stored. */
  datatype RewardDoc = RewardDoc(id: string, name: string, menuItemId: MenuItemIds, requiredPoints: Option<int>)

  /** A reward as listed on the page, with its resolved menu items. */
  datatype Reward = Reward(id: string, name: string, requiredPoints: Option<int>, menuItems: seq<MenuItem>)

  /** The menu item for an id that has a menu document. */
  function Resolve(id: string, menu: map<string, MenuEntry>): MenuItem
    requires id in menu
  {
    MenuItem(id, menu[id].name, menu[id].makingTime)
  }

  /** The menu items that exist for the given ids, in id order; ids with no
      menu document are dropped. */
  function ResolveMenuItems(ids: seq<string>, menu: map<string, MenuEntry>): (r: seq<MenuItem>)
    ensures |r| <= |ids|
    ensures forall i :: 0 <= i < |r| ==> r[i].id in ids && r[i].id in menu && r[i] == Resolve(r[i].id, menu)
    ensures forall id :: id in ids && id in menu ==> Resolve(id, menu) in r
  {
    if |ids| == 0 then []
    else
      var rest := ResolveMenuItems(ids[1..], menu);
      if ids[0] in menu then [Resolve(ids[0], menu)] + rest else rest
  }

  /** One reward document with its menu items resolved; a `menuItemId` that
      is not an array is read as the empty list. */
  function ToReward(d: RewardDoc, menu: map<string, MenuEntry>): Reward {
    var ids := if d.menuItemId.IdList? then d.menuItemId.ids else [];
    Reward(d.id, d.name, d.requiredPoints, ResolveMenuItems(ids, menu))
  }

  /** The rewards shown on the page: every document, resolved, except those
      left with no menu item. */
  function ListRewards(docs: seq<RewardDoc>, menu: map<string, MenuEntry>): (r: seq<Reward>)
    ensures |r| <= |docs|
    ensures forall x :: x in r ==> |x.menuItems| > 0
    ensures forall d :: d in docs ==> (ToReward(d, menu) in r <==> |ToReward(d, menu).menuItems| > 0)
    ensures forall x :: x in r ==> exists d :: d in docs && x == ToReward(d, menu)
  {
    if |docs| == 0 then []
    else
      var x := ToReward(docs[0], menu);
      var rest := ListRewards(docs[1..], menu);
      assert forall d :: d in docs[1..] ==> d in docs;
      (if |x.menuItems| > 0 then [x] else []) + rest
  }

  /** A reward document whose `menuItemId` is not an array is never listed. */
  lemma NonArrayMenuIdsNotListed(docs: seq<RewardDoc>, menu: map<string, MenuEntry>, d: RewardDoc)
    requires d in docs && d.menuItemId.NotAList?
    ensures ToReward(d, menu) !in ListRewards(docs, menu)
  {
  }

  /** A menu item's making time in minutes, 15 when it has none. */
  function ItemMakingTime(m: MenuItem): int {
    if m.makingTime.Some? && m.makingTime.value != 0 then m.makingTime.value else DefaultMakingTime
  }

  /** The longest making time among a reward's menu items. */
  function RewardMakingTime(items: seq<MenuItem>): (t: int)
    requires |items| > 0
    ensures forall i :: 0 <= i < |items| ==> ItemMakingTime(items[i]) <= t
    ensures exists i :: 0 <= i < |items| && ItemMakingTime(items[i]) == t
  {
    var times := seq(|items|, i requires 0 <= i < |items| => ItemMakingTime(items[i]));
    assert forall i :: 0 <= i < |items| ==> times[i] == ItemMakingTime(items[i]);
    MaxOf(times)
  }

  /** Why a redemption was refused. */
  datatype RedeemError = NotLoggedIn | NotEnoughPoints | AlreadyInCart

  /** The points a reward costs, 0 when it names none. */
  function RequiredPoints(reward: Reward): int {
    ValueOr(reward.requiredPoints, 0)
  }

  /** The cart line a redeemed reward becomes: free, one unit, locked. */
  function RedeemedLine(reward: Reward): CartLine
    requires |reward.menuItems| > 0
  {
    CartLine(reward.id, reward.name, 0.0, 1, RewardMakingTime(reward.menuItems), true, RequiredPoints(reward))
  }

  /** The stored cart already holds this reward as a redeemed line. */
  predicate AlreadyRedeemed(stored: seq<CartLine>, rewardId: string) {
    exists i :: 0 <= i < |stored| && stored[i].id == rewardId && stored[i].isRedeemed
  }

  /** Pressing "Redeem" on a listed reward. `user` is the signed-in user's id
      (None when nobody is signed in), `userPoints` the balance shown on the
      page, `stored` the cart in client storage. On success the new stored
      cart is returned; no points leave the wallet at this step. */
  function Redeem(user: Option<string>, userPoints: int, reward: Reward, stored: seq<CartLine>)
    : (r: Result<seq<CartLine>, RedeemError>)
    requires |reward.menuItems| > 0
    ensures user.None? ==> r == Err(NotLoggedIn)
    ensures user.Some? && userPoints < RequiredPoints(reward) ==> r == Err(NotEnoughPoints)
    ensures user.Some? && userPoints >= RequiredPoints(reward) && AlreadyRedeemed(stored, reward.id)
            ==> r == Err(AlreadyInCart)
    ensures r.Ok? <==> user.Some? && userPoints >= RequiredPoints(reward) && !AlreadyRedeemed(stored, reward.id)
    ensures r.Ok? ==> |r.value| == |stored| + 1 && r.value[..|stored|] == stored
    ensures r.Ok? ==> var l := r.value[|stored|];
                      && l.id == reward.id && l.title == reward.name
                      && l.price == 0.0 && l.quantity == 1 && l.isRedeemed
                      && l.requiredPoints == RequiredPoints(reward)
                      && l.makingTime == RewardMakingTime(reward.menuItems)
  {
    if user.None? then Err(NotLoggedIn)
    else if userPoints < RequiredPoints(reward) then Err(NotEnoughPoints)
    else if AlreadyRedeemed(stored, reward.id) then Err(AlreadyInCart)
    else
      var r := stored + [RedeemedLine(reward)];
      assert r[..|stored|] == stored;
      Ok(r)
  }

  /** A redeemed line's id is among the cart's redeemed-line ids exactly when
      the cart already holds that reward. */
  lemma {:induction false} AlreadyRedeemedIffInRedeemedLines(stored: seq<CartLine>, id: string)
    ensures AlreadyRedeemed(stored, id) <==> exists l :: l in RedeemedLines(stored) && l.id == id
  {
    if AlreadyRedeemed(stored, id) {
      var i :| 0 <= i < |stored| && stored[i].id == id && stored[i].isRedeemed;
      assert stored[i] in RedeemedLines(stored);
    }
  }

  /** Redemption keeps the invariant that no two redeemed lines share an id. */
  lemma RedeemKeepsOneRedeemedPerId(user: Option<string>, userPoints: int, reward: Reward, stored: seq<CartLine>)
    requires |reward.menuItems| > 0
    requires AtMostOneRedeemedPerId(stored)
    requires Redeem(user, userPoints, reward, stored).Ok?
    ensures AtMostOneRedeemedPerId(Redeem(user, userPoints, reward, stored).value)
  {
    var line := RedeemedLine(reward);
    var before := RedeemedLines(stored);
    RedeemedLinesAppend(stored, [line]);
    assert [line][1..] == [];
    assert RedeemedLines([line]) == [line];
    AlreadyRedeemedIffInRedeemedLines(stored, reward.id);
    var now := RedeemedLines(stored + [line]);
    assert now == before + [line];
    forall i, j | 0 <= i < j < |now|
      ensures now[i].id != now[j].id
    {
      if j == |before| {
        assert now[i] in before;
      } else {
        assert now[i] == before[i] && now[j] == before[j];
      }
    }
  }

  /** Redemption defers the debit: the points the cart will owe at checkout
      grow by exactly the reward's requirement. */
  lemma RedeemDefersDebit(user: Option<string>, userPoints: int, reward: Reward, stored: seq<CartLine>)
    requires |reward.menuItems| > 0
    requires Redeem(user, userPoints, reward, stored).Ok?
    ensures PointsOwed(Redeem(user, userPoints, reward, stored).value) == PointsOwed(stored) + RequiredPoints(reward)
  {
    var line := RedeemedLine(reward);
    assert Redeem(user, userPoints, reward, stored).value == stored + [line];
    PointsOwedAppend(stored, [line]);
    assert [line][1..] == [];
    assert RedeemedLines([line]) == [line];
    assert PointsSum([line]) == line.requiredPoints * line.quantity + PointsSum([]);
  }

  /** A redeemed reward is free: the bill is unchanged, including when the
      reward goes into an empty cart, whose discount is always zero. */
  lemma RedeemKeepsTotals(user: Option<string>, userPoints: int, reward: Reward, stored: seq<CartLine>, discount: real)
    requires |reward.menuItems| > 0 && (|stored| > 0 || discount == 0.0)
    requires Redeem(user, userPoints, reward, stored).Ok?
    ensures CartTotals(Redeem(user, userPoints, reward, stored).value, discount) == CartTotals(stored, discount)
  {
    FreeLineAddsNothing(stored, RedeemedLine(reward), discount);
  }
}
