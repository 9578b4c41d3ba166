/**
 * The popup's bookkeeping: the mapping between model names and the options
 * of the model selector, the fallback away from `gpt4` on the free plan,
 * the daily and monthly free-credit resets over the stored values, and the
 * credit count the popup shows. The keyword forms the popup saves and
 * displays are in the Keyword module.
 */
module Popup {
  import opened Options
  import opened JsValues
  import Dispatcher

  /** `getModelName`: the model name the page script expects for a selector option. */
  function ModelName(value: string): (name: string)
    ensures Dispatcher.Lookup(name).ProviderEntry?
  {
    match value
    case "gpt4" => "gpt4"
    case "gemini" => "gemini"
    case "gemini-pro" => "gemini"
    case "claude" => "claude"
    case "custom" => "custom"
    case _ => "gemini"
  }

  /** `getModelValue`: the selector option that shows a model name. */
  function ModelValue(name: string): (value: string)
    ensures Dispatcher.Lookup(value).ProviderEntry?
  {
    match name
    case "gpt4" => "gpt4"
    case "gemini" => "gemini"
    case "claude" => "claude"
    case "custom" => "custom"
    case _ => "gemini"
  }

  /**
   * Every model name survives the trip to a selector option and back; an
   * option other than a model name (`gemini-pro`, or anything unknown) is
   * read as Gemini; and the option shown for a name is that name.
   */
  lemma {:induction false} ModelNameRoundTrip(p: Dispatcher.Provider, value: string)
    ensures ModelName(ModelValue(Dispatcher.ProviderName(p))) == Dispatcher.ProviderName(p)
    ensures ModelValue(Dispatcher.ProviderName(p)) == Dispatcher.ProviderName(p)
    ensures ModelValue(ModelName(value)) == ModelName(value)
    ensures (forall q :: value != Dispatcher.ProviderName(q)) ==> ModelName(value) == "gemini"
  {
    match p
    case Gemini =>
    case Gpt4 =>
    case Claude =>
    case Custom =>
  }

  /** `getModelValue` applied to a stored value, which need not be a string. */
  function StoredModelValue(v: Js): (value: string)
    ensures v.Str? ==> value == ModelValue(v.s)
    ensures !v.Str? ==> value == "gemini"
    ensures Dispatcher.Lookup(value).ProviderEntry?
    ensures v.Str? && Dispatcher.Lookup(v.s).ProviderEntry? ==> value == v.s
    ensures !(v.Str? && Dispatcher.Lookup(v.s).ProviderEntry?) ==> value == "gemini"
  {
    if v.Str? then ModelValue(v.s) else "gemini"
  }

  /** `result.isLoggedIn && result.user ? result.user.plan : "free"`: the plan the popup offers models for. */
  function PopupPlan(isLoggedIn: Js, user: Js): (plan: Js)
    ensures !Truthy(isLoggedIn) || !Truthy(user) ==> plan == Str("free")
    ensures Truthy(isLoggedIn) && user.Obj? ==>
              plan == (if "plan" in user.fields then user.fields["plan"] else Undefined)
  {
    if Truthy(isLoggedIn) && Truthy(user) then Get(user, Name("plan")).value else Str("free")
  }

  /**
   * What the popup shows when it opens: the option of the main selector,
   * the option of the (disabled) logged-out selector, and the model it
   * writes back to `storage.sync`, if any.
   */
  datatype Selection = Selection(option: string, loggedOutOption: string, saved: Option<string>)

  /**
   * The selector set-up on opening: the stored model, `gemini` when unset,
   * except that `gpt4` on the free plan shows as `gemini-pro` and `gemini`
   * is saved in its place.
   */
  function InitialSelection(stored: Js, isLoggedIn: Js, user: Js): (s: Selection)
    ensures var active := Or(stored, Str("gemini"));
            s.saved.Some? <==> PopupPlan(isLoggedIn, user) == Str("free") && active == Str("gpt4")
    ensures s.saved.Some? ==> s.saved.value == "gemini" && s.option == "gemini-pro"
    ensures ModelName(s.option) == ModelName(s.loggedOutOption)
    ensures PopupPlan(isLoggedIn, user) == Str("free") ==> ModelName(s.option) != "gpt4"
    ensures s.saved.None? && stored.Str? && Dispatcher.Lookup(stored.s).ProviderEntry? ==>
              ModelName(s.option) == stored.s
    ensures !Truthy(stored) ==> ModelName(s.option) == "gemini" && s.saved.None?
    ensures var active := Or(stored, Str("gemini"));
            s.saved.None? ==> s.option == StoredModelValue(active) && s.loggedOutOption == StoredModelValue(active)
    ensures s.saved.Some? ==> s.loggedOutOption == "gemini"
  {
    var active := Or(stored, Str("gemini"));
    var plan := PopupPlan(isLoggedIn, user);
    var fallback := plan == Str("free") && active == Str("gpt4");
    Selection(
      if fallback then "gemini-pro" else StoredModelValue(active),
      StoredModelValue(if fallback then Str("gemini") else active),
      if fallback then Some("gemini") else None)
  }

  /**
   * The popup compares the plan with `"free"` exactly, while the page script
   * lower-cases it and treats a missing plan as free: a logged-in user whose
   * plan is `"Free"`, or who has no plan, keeps `gpt4` in the popup although
   * the page script runs that user on the free plan.
   */
  lemma PlanReadingsDiffer()
    ensures var user := Obj(map["plan" := Str("Free")]);
            InitialSelection(Str("gpt4"), Bool(true), user) == Selection("gpt4", "gpt4", None) &&
            Dispatcher.EffectivePlan(Some("Free")) == "free"
    ensures var user := Obj(map["uid" := Str("u")]);
            InitialSelection(Str("gpt4"), Bool(true), user) == Selection("gpt4", "gpt4", None) &&
            Dispatcher.EffectivePlan(None) == "free"
  {
    Dispatcher.PlanIgnoresCase();
  }

  /** The credits a logged-out user gets each day. */
  const DailyFreeCredits: int := 5

  /** The credits a logged-in user on the free plan gets each month. */
  const MonthlyFreeCredits: int := 10

  /** The keys of `storage.local` the credit display reads and the resets write; `Undefined` is an absent key. */
  datatype CreditStore = CreditStore(user: Js, freeCredits: Js, freeCreditsLastReset: Js, userCreditsLastResetMonth: Js)

  /** `user && user.uid`: a signed-in user record. */
  predicate HasUid(user: Js) {
    Truthy(user) && Truthy(Get(user, Name("uid")).value)
  }

  /** Only an object has a truthy `uid`. */
  lemma UidOnlyOnObjects(user: Js)
    requires HasUid(user)
    ensures user.Obj?
  {
    assert "uid" != "length";
  }

  /** `user && user.uid && (!user.plan || user.plan === "free")`: a signed-in user on the free plan. */
  predicate MonthlyEligible(user: Js) {
    HasUid(user) &&
    var plan := Get(user, Name("plan")).value;
    !Truthy(plan) || plan == Str("free")
  }

  /** `resetFreeCreditsIfNeeded`: on a new day the free credits are refilled and the day recorded. */
  function DailyReset(s: CreditStore, today: string): (t: CreditStore)
    ensures t.user == s.user && t.userCreditsLastResetMonth == s.userCreditsLastResetMonth
    ensures t.freeCreditsLastReset == Str(today)
    ensures s.freeCreditsLastReset != Str(today) ==> t.freeCredits == Num(DailyFreeCredits)
    ensures s.freeCreditsLastReset == Str(today) ==> t == s
  {
    if s.freeCreditsLastReset != Str(today) then
      s.(freeCredits := Num(DailyFreeCredits), freeCreditsLastReset := Str(today))
    else s
  }

  /** A second reset on the same day changes nothing. */
  lemma DailyResetIdempotent(s: CreditStore, today: string)
    ensures DailyReset(DailyReset(s, today), today) == DailyReset(s, today)
  {
  }

  /** `user.credits = 10` on a user record. */
  function WithMonthlyCredits(user: Js): (u: Js)
    requires user.Obj?
    ensures u.Obj? && "credits" in u.fields && u.fields["credits"] == Num(MonthlyFreeCredits)
    ensures forall k :: k != "credits" ==> Get(u, Name(k)) == Get(user, Name(k))
  {
    user.(fields := user.fields["credits" := Num(MonthlyFreeCredits)])
  }

  /**
   * `resetLoggedInFreeCreditsIfNeeded`: a signed-in user on the free plan
   * gets the monthly credits once per month; anyone else is left alone.
   */
  function MonthlyReset(s: CreditStore, month: string): (t: CreditStore)
    ensures t.freeCredits == s.freeCredits && t.freeCreditsLastReset == s.freeCreditsLastReset
    ensures !MonthlyEligible(s.user) || s.userCreditsLastResetMonth == Str(month) ==> t == s
    ensures MonthlyEligible(s.user) ==> t.userCreditsLastResetMonth == Str(month)
    ensures MonthlyEligible(s.user) && s.userCreditsLastResetMonth != Str(month) ==>
              Get(t.user, Name("credits")) == Normal(Num(MonthlyFreeCredits))
    ensures forall k :: k != "credits" ==> Get(t.user, Name(k)) == Get(s.user, Name(k))
  {
    if MonthlyEligible(s.user) && s.userCreditsLastResetMonth != Str(month) then
      UidOnlyOnObjects(s.user);
      s.(user := WithMonthlyCredits(s.user), userCreditsLastResetMonth := Str(month))
    else s
  }

  /** A second reset in the same month changes nothing. */
  lemma MonthlyResetIdempotent(s: CreditStore, month: string)
    ensures MonthlyReset(MonthlyReset(s, month), month) == MonthlyReset(s, month)
  {
  }

  /** The credit count shown: the user's credits (0 when unset) for a signed-in user, else the free credits (5 when unset). */
  function DisplayedCredits(s: CreditStore): (credits: Js)
    ensures HasUid(s.user) ==> credits.Undefined? == false
    ensures !HasUid(s.user) && s.freeCredits.Undefined? ==> credits == Num(DailyFreeCredits)
    ensures HasUid(s.user) ==>
              s.user.Obj? &&
              credits == (if "credits" in s.user.fields && !s.user.fields["credits"].Undefined? then s.user.fields["credits"] else Num(0))
    ensures !HasUid(s.user) && !s.freeCredits.Undefined? ==> credits == s.freeCredits
  {
    if HasUid(s.user) then
      var c := Get(s.user, Name("credits")).value;
      if c.Undefined? then Num(0) else c
    else if s.freeCredits.Undefined? then Num(DailyFreeCredits)
    else s.freeCredits
  }

  /**
   * What the popup shows after both resets: a logged-out user on a new day
   * sees the daily credits, a free-plan user in a new month sees the monthly
   * credits, and a paid user's record and count are left as they were.
   */
  lemma {:induction false} CreditsAfterResets(s: CreditStore, today: string, month: string)
    ensures var t := MonthlyReset(DailyReset(s, today), month);
            !HasUid(s.user) && s.freeCreditsLastReset != Str(today) ==> DisplayedCredits(t) == Num(DailyFreeCredits)
    ensures var t := MonthlyReset(DailyReset(s, today), month);
            MonthlyEligible(s.user) && s.userCreditsLastResetMonth != Str(month) ==>
              DisplayedCredits(t) == Num(MonthlyFreeCredits)
    ensures var t := MonthlyReset(DailyReset(s, today), month);
            HasUid(s.user) && !MonthlyEligible(s.user) ==>
              t.user == s.user && DisplayedCredits(t) == DisplayedCredits(s)
  {
    var d := DailyReset(s, today);
    var t := MonthlyReset(d, month);
    if MonthlyEligible(s.user) && s.userCreditsLastResetMonth != Str(month) {
      UidOnlyOnObjects(s.user);
      assert Get(t.user, Name("uid")) == Get(s.user, Name("uid"));
      assert HasUid(t.user);
    }
  }

  /** The stored values the popup reads and writes, as it finds them in `storage.local`. */
  class PopupStorage {
    var user: Js
    var freeCredits: Js
    var freeCreditsLastReset: Js
    var userCreditsLastResetMonth: Js

    /** The stored values as one record. */
    function Store(): CreditStore
      reads this
    {
      CreditStore(user, freeCredits, freeCreditsLastReset, userCreditsLastResetMonth)
    }

    constructor(s: CreditStore)
      ensures Store() == s
    {
      user := s.user;
      freeCredits := s.freeCredits;
      freeCreditsLastReset := s.freeCreditsLastReset;
      userCreditsLastResetMonth := s.userCreditsLastResetMonth;
    }

    /** `resetFreeCreditsIfNeeded`, with the date `toISOString().slice(0, 10)` passed in as `today`. */
    method ResetFreeCreditsIfNeeded(today: string)
      modifies this
      ensures Store() == DailyReset(old(Store()), today)
    {
      if freeCreditsLastReset != Str(today) {
        freeCredits := Num(DailyFreeCredits);
        freeCreditsLastReset := Str(today);
      }
    }

    /** `resetLoggedInFreeCreditsIfNeeded`, with `getFullYear() + "-" + (getMonth() + 1)` passed in as `currentMonth`. */
    method ResetLoggedInFreeCreditsIfNeeded(currentMonth: string)
      modifies this
      ensures Store() == MonthlyReset(old(Store()), currentMonth)
    {
      if MonthlyEligible(user) && userCreditsLastResetMonth != Str(currentMonth) {
        UidOnlyOnObjects(user);
        user := user.(fields := user.fields["credits" := Num(MonthlyFreeCredits)]);
        userCreditsLastResetMonth := Str(currentMonth);
      }
    }

    /** `updateCreditsDisplay`: both resets, then the count shown. */
    method UpdateCreditsDisplay(today: string, currentMonth: string) returns (credits: Js)
      modifies this
      ensures Store() == MonthlyReset(DailyReset(old(Store()), today), currentMonth)
      ensures credits == DisplayedCredits(Store())
    {
      ResetFreeCreditsIfNeeded(today);
      ResetLoggedInFreeCreditsIfNeeded(currentMonth);
      if HasUid(user) {
        var c := Get(user, Name("credits")).value;
        credits := if c.Undefined? then Num(0) else c;
      } else {
        credits := if freeCredits.Undefined? then Num(DailyFreeCredits) else freeCredits;
      }
    }
  }
}
