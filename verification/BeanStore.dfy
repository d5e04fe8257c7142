/** The billing store as an object over its tables; each method is proved to commit its ledger operation. */
module BeanStore {
  import opened Common
  import opened Ledger

  datatype HoldReply = HoldReply(frozen: int, available: int, dedup: bool)
  datatype SettleReply = SettleReply(charged: int, balanceAfter: int, dedup: bool)

  class Store {
    var users: map<int, Account>
    var log: seq<Row>
    var features: map<int, seq<string>>

    constructor (users: map<int, Account>, features: map<int, seq<string>>)
      ensures State() == Db(users, [], features)
    {
      this.users, this.log, this.features := users, [], features;
    }

    ghost function State(): Db
      reads this
    {
      Db(users, log, features)
    }

    /** UPDATE users SET beans, frozen_beans WHERE id = user. */
    method WriteAccount(user: int, a: Account)
      requires user in users
      modifies this`users
      ensures users == old(users)[user := a]
    {
      users := users[user := a];
    }

    method Insert(r: Row)
      modifies this`log
      ensures log == old(log) + [r]
    {
      log := log + [r];
    }

    /** A hold is granted when it was granted before or when it leaves the available balance at the floor
        or above; it never touches beans. */
    method HoldBeans(user: int, amount: int, i: int) returns (r: Option<HoldReply>)
      modifies this`users, this`log
      ensures State() == Apply(old(State()), Hold(user, amount, i))
      ensures r.Some? <==>
        amount > 0 && user in old(users) &&
        (HasHold(old(log), i) || old(users[user]).Available() - amount >= BEANS_FLOOR)
      ensures r.Some? ==>
        && user in users
        && r.value.frozen == users[user].frozen && r.value.available == users[user].Available()
        && r.value.dedup == HasHold(old(log), i)
    {
      if amount <= 0 {
        return None;
      }
      if HasHold(log, i) {
        if user !in users {
          return None;
        }
        return Some(HoldReply(users[user].frozen, users[user].Available(), true));
      }
      if user !in users || users[user].beans - users[user].frozen - amount < BEANS_FLOOR {
        return None;
      }
      var a := users[user];
      WriteAccount(user, a.(frozen := a.frozen + amount));
      var beans, frozen := users[user].beans, users[user].frozen;
      Insert(Row(user, 0, beans, "hold", Some(i)));
      return Some(HoldReply(frozen, beans - frozen, false));
    }

    method SettleBeans(user: int, i: int, held: int, multimodalOk: bool, images: int, titleOk: bool)
      returns (r: Option<SettleReply>)
      modifies this`users, this`log
      ensures State() == Apply(old(State()), Settle(user, i, held, multimodalOk, images, titleOk))
      ensures r.Some? <==> HasCharge(old(log), i) || CanSettle(old(State()), user, i)
      ensures r.Some? && user in users ==> r.value.balanceAfter == users[user].beans
      ensures r.Some? && user in users ==> r.value.charged == old(users)[user].beans - users[user].beans
      ensures r.Some? ==> r.value.dedup == HasCharge(old(log), i)
    {
      var actual := 0;
      if titleOk { actual := actual + COST_TITLE; }
      if multimodalOk { actual := actual + HOLD_MULTIMODAL; }
      actual := actual + HOLD_PER_IMAGE * Max(0, images);
      if HasCharge(log, i) {
        return Some(SettleReply(0, if user in users then users[user].beans else 0, true));
      }
      if !HasHold(log, i) || user !in users {
        return None;
      }
      var cur := users[user];
      var release := Min(held, cur.frozen);
      var newFrozen := cur.frozen - release;
      var newBeans := cur.beans - actual;
      WriteAccount(user, Account(newBeans, newFrozen));
      Insert(Row(user, 0 - actual, newBeans, "TEMU采集", Some(i)));
      return Some(SettleReply(actual, newBeans, false));
    }

    /** Returns (balance after, dedup). A release never changes beans. */
    method ReleaseBeans(user: int, i: int, held: int) returns (r: Option<(int, bool)>)
      modifies this`users, this`log
      ensures State() == Apply(old(State()), Release(user, i, held))
      ensures r.Some? <==> HasNonZero(old(log), i) || CanRelease(old(State()), user, i)
      ensures r.Some? && user in old(users) ==> r.value.0 == old(users)[user].beans
      ensures r.Some? ==> r.value.1 == HasNonZero(old(log), i)
    {
      if HasNonZero(log, i) {
        return Some((if user in users then users[user].beans else 0, true));
      }
      if !HasHold(log, i) || user !in users {
        return None;
      }
      var cur := users[user];
      var release := Min(held, cur.frozen);
      WriteAccount(user, cur.(frozen := cur.frozen - release));
      Insert(Row(user, 0, cur.beans, "release", Some(i)));
      return Some((cur.beans, false));
    }

    method ResetBillingForImport(user: int, i: int)
      modifies this`users, this`log
      ensures State() == Apply(old(State()), Reset(user, i))
    {
      if user !in users {
        return;
      }
      var beans, frozen := users[user].beans, users[user].frozen;
      if HasHold(log, i) {
        var oldAmount := 0;
        if i in features {
          oldAmount := HoldAmountFor(features[i]);
        }
        frozen := Max(0, frozen - oldAmount);
      }
      beans := beans - ChargeSum(log, i);
      WriteAccount(user, Account(beans, frozen));
      log := Without(log, i);
    }

    method AddBeans(user: int, amount: int, reason: string) returns (balance: Option<int>)
      modifies this`users, this`log
      ensures State() == Apply(old(State()), Recharge(user, amount, reason))
      ensures balance.Some? <==> amount > 0 && user in old(users)
      ensures balance.Some? ==> user in users && balance.value == users[user].beans == old(users)[user].beans + amount
    {
      if amount <= 0 || user !in users {
        return None;
      }
      var a := users[user];
      WriteAccount(user, a.(beans := a.beans + amount));
      Insert(Row(user, amount, users[user].beans, reason, Option.None));
      return Some(users[user].beans);
    }

    method AdminRechargeBeans(user: int, amount: int, note: string) returns (balance: Option<int>)
      modifies this`users, this`log
      ensures State() == Apply(old(State()), AdminRecharge(user, amount, note))
      ensures balance.Some? <==> amount > 0 && user in old(users)
      ensures balance.Some? ==> user in users && balance.value == users[user].beans == old(users)[user].beans + amount
    {
      if amount <= 0 || user !in users {
        return None;
      }
      var a := users[user];
      WriteAccount(user, a.(beans := a.beans + amount));
      var reason := "超管充值";
      if note != "" {
        reason := "超管充值: " + note;
      }
      Insert(Row(user, amount, users[user].beans, reason, Option.None));
      return Some(users[user].beans);
    }

    method SetAiFeatures(i: int, chosen: seq<string>)
      modifies this`features
      ensures State() == Apply(old(State()), SetFeatures(i, chosen))
    {
      if i in features {
        features := features[i := chosen];
      }
    }
  }
}
