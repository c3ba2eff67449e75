/** The idempotency keys of the engine, and why they never collide. */
module IdempotencyKeys {

  /** Two parts of a key, separated by a colon. */
  function Join(part: string, rest: string): string { part + (":" + rest) }

  /** `campaign:<automation>:customer:<customer>` */
  function CampaignKey(automationId: string, customerId: string): string {
    Join("campaign", Join(automationId, Join("customer", customerId)))
  }

  /** `automation:<automation>:customer:<customer>:<cycle>:<date>` */
  function RecurringKey(automationId: string, customerId: string, isBirthday: bool, date: string): string {
    Join("automation", Join(automationId, Join("customer", Join(customerId, Join(Cycle(isBirthday), date)))))
  }

  function Cycle(isBirthday: bool): string { if isBirthday then "birthday" else "cycle" }

  predicate ColonFree(s: string) { ':' !in s }

  /** A part without a colon can be read back from the key. */
  lemma JoinIsInjective(x: string, u: string, y: string, v: string)
    requires ColonFree(x) && ColonFree(y)
    requires Join(x, u) == Join(y, v)
    ensures x == y && u == v
  {
    var whole := Join(x, u);
    assert whole[|x|] == ':' && whole[|y|] == ':';
    assert forall k :: 0 <= k < |x| ==> whole[k] == x[k] && x[k] in x;
    assert forall k :: 0 <= k < |y| ==> whole[k] == y[k] && y[k] in y;
    assert |x| == |y|;
    assert x == whole[..|x|] == y;
    assert u == whole[|x| + 1..] == v;
  }

  lemma JoinedWords(rest: string)
    ensures Join("campaign", rest) == "campaign:" + rest && Join("automation", rest) == "automation:" + rest
    ensures ":" + Join("customer", rest) == ":customer:" + rest
    ensures ":" + Join("birthday", rest) == ":birthday:" + rest && ":" + Join("cycle", rest) == ":cycle:" + rest
  {
  }

  /** The keys as texts. */
  lemma CampaignKeyAsText(a: string, c: string)
    ensures CampaignKey(a, c) == "campaign:" + (a + (":customer:" + c))
  {
    JoinedWords(c);
    JoinedWords(a + (":customer:" + c));
  }

  lemma RecurringKeyAsText(a: string, c: string, isBirthday: bool, date: string)
    ensures RecurringKey(a, c, isBirthday, date)
         == "automation:" + (a + (":customer:" + (c + ((if isBirthday then ":birthday:" else ":cycle:") + date))))
  {
    var cycle := (if isBirthday then ":birthday:" else ":cycle:") + date;
    JoinedWords(date);
    JoinedWords(c + cycle);
    JoinedWords(a + (":customer:" + (c + cycle)));
  }

  /** Campaign keys determine the campaign and the customer. */
  lemma CampaignKeysAreInjective(a: string, c: string, b: string, d: string)
    requires ColonFree(a) && ColonFree(b)
    requires CampaignKey(a, c) == CampaignKey(b, d)
    ensures a == b && c == d
  {
    JoinIsInjective("campaign", Join(a, Join("customer", c)), "campaign", Join(b, Join("customer", d)));
    JoinIsInjective(a, Join("customer", c), b, Join("customer", d));
    JoinIsInjective("customer", c, "customer", d);
  }

  /** Recurring keys determine the automation, the customer, the cycle and the date. */
  lemma RecurringKeysAreInjective(a: string, c: string, p: bool, s: string, b: string, d: string, q: bool, t: string)
    requires ColonFree(a) && ColonFree(b) && ColonFree(c) && ColonFree(d)
    requires RecurringKey(a, c, p, s) == RecurringKey(b, d, q, t)
    ensures a == b && c == d && p == q && s == t
  {
    var u, v := Join(c, Join(Cycle(p), s)), Join(d, Join(Cycle(q), t));
    JoinIsInjective("automation", Join(a, Join("customer", u)), "automation", Join(b, Join("customer", v)));
    JoinIsInjective(a, Join("customer", u), b, Join("customer", v));
    JoinIsInjective("customer", u, "customer", v);
    JoinIsInjective(c, Join(Cycle(p), s), d, Join(Cycle(q), t));
    JoinIsInjective(Cycle(p), s, Cycle(q), t);
    assert "birthday"[0] != "cycle"[0];
  }

  /** No campaign key is a recurring key. */
  lemma KeyFormatsAreDisjoint(a: string, c: string, b: string, d: string, q: bool, t: string)
    ensures CampaignKey(a, c) != RecurringKey(b, d, q, t)
  {
    assert CampaignKey(a, c)[0] == 'c' && RecurringKey(b, d, q, t)[0] == 'a';
  }
}
