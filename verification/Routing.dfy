/**
 First-match routing of a charge to a PSP adapter.
 */
module Routing {
  import opened Domain
  import opened Text

  /** An empty `currencies` matches any currency; `maxAmount` 0 means no upper bound. */
  datatype Rule = Rule(currencies: seq<string>, minAmount: int, maxAmount: int, psp: string)

  /** `adapters` are the names that resolve to a configured adapter. */
  datatype Router = Router(adapters: set<string>, rules: seq<Rule>)

  datatype Selected = Adapter(name: string) | UnknownAdapter(name: string) | NoRoute

  const STRIPE := "stripe_mock"
  const RAZORPAY := "razorpay_mock"
  const LARGE_AMOUNT := 100_000

  const DEFAULT_RULES := [
    Rule(["INR"], 0, 0, RAZORPAY),
    Rule(["USD", "EUR", "GBP"], 0, 0, STRIPE),
    Rule([], LARGE_AMOUNT + 1, 0, STRIPE)]

  const DEFAULT_ROUTER := Router({STRIPE, RAZORPAY}, DEFAULT_RULES)

  /** The currencies an adapter processes. */
  function Supported(psp: string): set<string> {
    if psp == STRIPE then {"USD", "EUR", "GBP"} else if psp == RAZORPAY then {"INR"} else {}
  }

  function Normal(currency: string): string {
    ToUpper(Trim(currency))
  }

  predicate AmountFits(rule: Rule, amount: int) {
    rule.minAmount <= amount <= if rule.maxAmount == 0 then MAX_INT64 else rule.maxAmount
  }

  /** What a rule says it matches, without saying how it is searched. */
  predicate RuleMatches(rule: Rule, cur: string, amount: int) {
    && AmountFits(rule, amount)
    && (rule.currencies == [] || exists i :: 0 <= i < |rule.currencies| && Normal(rule.currencies[i]) == cur)
  }

  function Resolve(r: Router, name: string): Selected {
    if name in r.adapters then Adapter(name) else UnknownAdapter(name)
  }

  /** `i` is the least index of a matching rule. */
  predicate FirstMatch(r: Router, cur: string, amount: int, i: nat) {
    && i < |r.rules| && RuleMatches(r.rules[i], cur, amount)
    && forall j :: 0 <= j < i ==> !RuleMatches(r.rules[j], cur, amount)
  }

  predicate Unroutable(r: Router, cur: string, amount: int) {
    forall j :: 0 <= j < |r.rules| ==> !RuleMatches(r.rules[j], cur, amount)
  }

  /**
   The nested search returns the adapter of the least-index matching rule, and reports
   no route exactly when no rule matches.
   */
  method Select(r: Router, currency: string, amount: int) returns (sel: Selected)
    ensures sel.NoRoute? <==> Unroutable(r, Normal(currency), amount)
    ensures !sel.NoRoute? ==>
      exists i: nat :: FirstMatch(r, Normal(currency), amount, i) && sel == Resolve(r, r.rules[i].psp)
    ensures sel == Route(r, currency, amount)
  {
    var cur := ToUpper(Trim(currency));
    for k := 0 to |r.rules|
      invariant forall j :: 0 <= j < k ==> !RuleMatches(r.rules[j], cur, amount)
    {
      var rule := r.rules[k];
      var maxAmt := if rule.maxAmount == 0 then MAX_INT64 else rule.maxAmount;
      if amount < rule.minAmount || amount > maxAmt {
        continue;
      }
      if |rule.currencies| == 0 {
        RouteIsFirstMatch(r, currency, amount, k);
        return Resolve(r, rule.psp);
      }
      for m := 0 to |rule.currencies|
        invariant forall i :: 0 <= i < m ==> Normal(rule.currencies[i]) != cur
      {
        if ToUpper(Trim(rule.currencies[m])) == cur {
          RouteIsFirstMatch(r, currency, amount, k);
          return Resolve(r, rule.psp);
        }
      }
    }
    return NoRoute;
  }

  /** The value that Select computes, for use where a method cannot be called. */
  ghost function Route(r: Router, currency: string, amount: int): Selected {
    if Unroutable(r, Normal(currency), amount) then NoRoute
    else
      LeastMatch(r, Normal(currency), amount, 0);
      var i: nat :| FirstMatch(r, Normal(currency), amount, i);
      Resolve(r, r.rules[i].psp)
  }

  lemma LeastMatch(r: Router, cur: string, amount: int, from: nat)
    requires !Unroutable(r, cur, amount) && from <= |r.rules|
    requires forall j :: 0 <= j < from ==> !RuleMatches(r.rules[j], cur, amount)
    ensures exists i: nat :: FirstMatch(r, cur, amount, i)
    decreases |r.rules| - from
  {
    if from < |r.rules| && RuleMatches(r.rules[from], cur, amount) {
      assert FirstMatch(r, cur, amount, from);
    } else {
      LeastMatch(r, cur, amount, from + 1);
    }
  }

  lemma RouteIsFirstMatch(r: Router, currency: string, amount: int, i: nat)
    requires FirstMatch(r, Normal(currency), amount, i)
    ensures Route(r, currency, amount) == Resolve(r, r.rules[i].psp)
  {
    var cur := Normal(currency);
    assert !Unroutable(r, cur, amount);
    forall k: nat | FirstMatch(r, cur, amount, k) ensures k == i {}
  }

  /******* The default rules *******/

  /** A three-letter upper-case code is already normal. */
  lemma CodeIsNormal(code: string)
    requires |code| == 3 && forall i :: 0 <= i < 3 ==> 'A' <= code[i] <= 'Z'
    ensures Normal(code) == code
  {
    assert !IsSpace(code[0]) && !IsSpace(code[2]);
    assert Trim(code) == code;
    assert ToUpper(code) == code;
  }

  /**
   Every request that validation accepts, in any letter case and with any padding, is
   routed by the default rules, and to an adapter that supports its currency.
   */
  lemma DefaultRoutingIsSound(req: CreateRequest)
    requires ValidCreate(req)
    ensures var sel := Route(DEFAULT_ROUTER, req.currency, req.amount);
      && sel.Adapter? && Normal(req.currency) in Supported(sel.name)
      && sel.name == if ToUpper(Trim(req.currency)) == "INR" then "razorpay_mock" else "stripe_mock"
  {
    TrimUpperCommute(req.currency);
    var cur := Normal(req.currency);
    DefaultFirstMatch(cur, req.amount);
    RouteIsFirstMatch(DEFAULT_ROUTER, req.currency, req.amount, if cur == "INR" then 0 else 1);
  }

  lemma InrRule(cur: string, amount: int)
    requires ValidCurrency(cur) && 0 < amount <= MAX_INT64
    ensures RuleMatches(DEFAULT_RULES[0], cur, amount) <==> cur == "INR"
  {
    CodeIsNormal("INR");
    assert Normal(DEFAULT_RULES[0].currencies[0]) == "INR";
  }

  lemma CardRule(cur: string, amount: int)
    requires ValidCurrency(cur) && cur != "INR" && 0 < amount <= MAX_INT64
    ensures RuleMatches(DEFAULT_RULES[1], cur, amount)
  {
    CodeIsNormal(cur);
    var i := if cur == "USD" then 0 else if cur == "EUR" then 1 else 2;
    assert Normal(DEFAULT_RULES[1].currencies[i]) == cur;
  }

  lemma DefaultFirstMatch(cur: string, amount: int)
    requires ValidCurrency(cur) && 0 < amount <= MAX_INT64
    ensures FirstMatch(DEFAULT_ROUTER, cur, amount, if cur == "INR" then 0 else 1)
  {
    InrRule(cur, amount);
    if cur != "INR" {
      CardRule(cur, amount);
    }
  }

  /** A rule takes the amounts between its bounds, both included, and its currencies in any case and padding. */
  lemma RuleBounds(rule: Rule, currency: string, amount: int)
    requires amount <= MAX_INT64
    ensures RuleMatches(rule, ToUpper(Trim(currency)), amount) <==>
      && rule.minAmount <= amount && (rule.maxAmount != 0 ==> amount <= rule.maxAmount)
      && (|rule.currencies| == 0
          || exists i :: 0 <= i < |rule.currencies| && ToUpper(Trim(rule.currencies[i])) == ToUpper(Trim(currency)))
  {
  }

  lemma CodesAreNormal()
    ensures Normal("INR") == "INR" && Normal("USD") == "USD" && Normal("EUR") == "EUR" && Normal("GBP") == "GBP"
  {
    CodeIsNormal("INR");
    CodeIsNormal("USD");
    CodeIsNormal("EUR");
    CodeIsNormal("GBP");
  }

  lemma DefaultRuleMatches(cur: string, amount: int)
    requires amount <= MAX_INT64
    ensures RuleMatches(DEFAULT_RULES[0], cur, amount) <==> amount >= 0 && cur == "INR"
    ensures RuleMatches(DEFAULT_RULES[1], cur, amount) <==> amount >= 0 && cur in {"USD", "EUR", "GBP"}
    ensures RuleMatches(DEFAULT_RULES[2], cur, amount) <==> amount > 100_000
  {
    CodesAreNormal();
    assert DEFAULT_RULES[0].currencies[0] == "INR";
    var cs := DEFAULT_RULES[1].currencies;
    assert cs[0] == "USD" && cs[1] == "EUR" && cs[2] == "GBP" && |cs| == 3;
    if amount >= 0 && cur in {"USD", "EUR", "GBP"} {
      var i := if cur == "USD" then 0 else if cur == "EUR" then 1 else 2;
      assert Normal(cs[i]) == cur;
    }
  }

  /**
   Where the default rules send any currency and any int64 amount: rupees to Razorpay, the
   card currencies to Stripe, anything else to Stripe only above the large-amount threshold.
   */
  lemma DefaultRouteIs(currency: string, amount: int)
    requires amount <= MAX_INT64
    ensures var cur := ToUpper(Trim(currency));
      Route(DEFAULT_ROUTER, currency, amount) ==
        if amount >= 0 && cur == "INR" then Adapter("razorpay_mock")
        else if (amount >= 0 && cur in {"USD", "EUR", "GBP"}) || amount > 100_000 then Adapter("stripe_mock")
        else NoRoute
  {
    DefaultRuleMatches(Normal(currency), amount);
    RouteOfThree(DEFAULT_ROUTER, currency, amount);
    assert DEFAULT_RULES[0].psp == RAZORPAY && DEFAULT_RULES[1].psp == STRIPE && DEFAULT_RULES[2].psp == STRIPE;
    hide RuleMatches, Route;
  }

  lemma RouteOfThree(r: Router, currency: string, amount: int)
    requires |r.rules| == 3
    ensures var cur := Normal(currency);
      Route(r, currency, amount) ==
        if RuleMatches(r.rules[0], cur, amount) then Resolve(r, r.rules[0].psp)
        else if RuleMatches(r.rules[1], cur, amount) then Resolve(r, r.rules[1].psp)
        else if RuleMatches(r.rules[2], cur, amount) then Resolve(r, r.rules[2].psp)
        else NoRoute
  {
    hide RuleMatches, Route, Normal;
    var cur := Normal(currency);
    if RuleMatches(r.rules[0], cur, amount) {
      RouteIsFirstMatch(r, currency, amount, 0);
    } else if RuleMatches(r.rules[1], cur, amount) {
      RouteIsFirstMatch(r, currency, amount, 1);
    } else if RuleMatches(r.rules[2], cur, amount) {
      RouteIsFirstMatch(r, currency, amount, 2);
    } else {
      NothingMatches(r, currency, amount);
    }
  }

  lemma NothingMatches(r: Router, currency: string, amount: int)
    requires Unroutable(r, Normal(currency), amount)
    ensures Route(r, currency, amount) == NoRoute
  {
  }
}
