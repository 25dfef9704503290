/**
 The thirty texts the clearing engines use for reason codes and decisions, in alphabetical order, and the proof
 that they are plain tokens and that the order is as stated.
 */
module StandardTexts {
  import opened ClearingCodes
  import opened OrderedText
  import opened Tokens

  /** Two parts of a text with an underscore between them. */
  function Join(a: string, b: string): string {
    a + "_" + b
  }

  predicate IsPhrase(s: string) {
    IsPlainToken(s) && s != ""
  }

  lemma JoinPhrase(a: string, b: string)
    requires IsWord(a) && IsPhrase(b) && |a| + 1 + |b| <= 64
    ensures IsPhrase(Join(a, b))
  {
    WordIsPlain(a);
    JoinIsPlain(a, b);
  }

  lemma Phrase2(a: string, b: string)
    requires IsWord(a) && IsWord(b) && |a| <= 16 && |b| <= 15
    ensures IsPhrase(Join(a, b)) && |Join(a, b)| <= 32
  {
    WordIsPlain(b);
    JoinPhrase(a, b);
  }

  lemma Phrase3(a: string, b: string, c: string)
    requires IsWord(a) && IsWord(b) && IsWord(c) && |a| <= 15 && |b| <= 16 && |c| <= 15
    ensures IsPhrase(Join(a, Join(b, c))) && |Join(a, Join(b, c))| <= 48
  {
    Phrase2(b, c);
    JoinPhrase(a, Join(b, c));
  }

  lemma Phrase4(a: string, b: string, c: string, d: string)
    requires IsWord(a) && IsWord(b) && IsWord(c) && IsWord(d)
    requires |a| <= 15 && |b| <= 15 && |c| <= 16 && |d| <= 15
    ensures IsPhrase(Join(a, Join(b, Join(c, d))))
  {
    Phrase3(b, c, d);
    JoinPhrase(a, Join(b, Join(c, d)));
  }

  /** Texts that part inside their first words. */
  lemma {:induction false} LexAt(a: string, b: string, x: string, y: string, k: nat)
    requires k < |a| && k < |b| && a[..k] == b[..k] && a[k] < b[k]
    ensures LexLess(a + x, b + y)
    decreases k
  {
    assert (a + x)[1..] == a[1..] + x && (b + y)[1..] == b[1..] + y;
    if k > 0 {
      assert a[0] == a[..k][0] && b[0] == b[..k][0];
      assert a[1..][..k - 1] == a[..k][1..] && b[1..][..k - 1] == b[..k][1..];
      LexAt(a[1..], b[1..], x, y, k - 1);
    }
  }

  lemma {:induction false} LexPrefix(a: string, x: string, y: string)
    requires LexLess(x, y)
    ensures LexLess(a + x, a + y)
  {
    if a == "" {
      assert a + x == x && a + y == y;
    } else {
      LexPrefix(a[1..], x, y);
      assert (a + x)[1..] == a[1..] + x && (a + y)[1..] == a[1..] + y;
    }
  }

  lemma PartInFirst(a: string, b: string, x: string, y: string, k: nat)
    requires k < |a| && k < |b| && a[..k] == b[..k] && a[k] < b[k]
    ensures LexLess(Join(a, x), Join(b, y))
  {
    LexAt(a, b, "_" + x, "_" + y, k);
    assert Join(a, x) == a + ("_" + x) && Join(b, y) == b + ("_" + y);
  }

  lemma SameFirst(a: string, x: string, y: string)
    requires LexLess(x, y)
    ensures LexLess(Join(a, x), Join(a, y))
  {
    LexPrefix(a + "_", x, y);
  }

  function Texts0(): seq<string> {
    [Join("accept", Join("with", "limits")), Join("automatic", Join("purchase", "requested"))]
  }

  function Texts1(): seq<string> {
    [Join("billing", "requested"), Join("cap", Join("spend", "limit"))]
  }

  function Texts2(): seq<string> {
    [Join("clarify", Join("payment", "intent")), Join("create", Join("receipt", "only"))]
  }

  function Texts3(): seq<string> {
    [Join("customer", Join("facing", "action")), Join("deployment", "requested")]
  }

  function Texts4(): seq<string> {
    [Join("draft", Join("only", Join("not", "executed"))), Join("external", Join("connection", "requested"))]
  }

  function Texts5(): seq<string> {
    [Join("high", Join("risk", "action")), Join("keep", "blocked")]
  }

  function Texts6(): seq<string> {
    [Join("low", Join("risk", Join("receipt", "only"))), Join("missing", "evidence")]
  }

  function Texts7(): seq<string> {
    [Join("missing", Join("human", "approval")), Join("money", Join("movement", "requested"))]
  }

  function Texts8(): seq<string> {
    [Join("payment", Join("intent", "unclear")), Join("payment", "requested")]
  }

  function Texts9(): seq<string> {
    [Join("private", Join("data", Join("access", "requested"))), Join("publishing", "requested")]
  }

  function Texts10(): seq<string> {
    [Join("refusalgraph", Join("critical", "caution")), Join("refusalgraph", Join("high", "caution"))]
  }

  function Texts11(): seq<string> {
    [Join("refuse", "transaction"), Join("require", Join("human", "approval"))]
  }

  function Texts12(): seq<string> {
    [Join("require", Join("identity", "verification")), Join("require", Join("more", "evidence"))]
  }

  function Texts13(): seq<string> {
    [Join("settlement", "requested"), Join("signup", "requested")]
  }

  function Texts14(): seq<string> {
    [Join("unknown", Join("or", Join("unclear", "intent"))), Join("weak", Join("or", Join("missing", "identity")))]
  }

  function FirstTexts(): seq<string> {
    Texts0() + (Texts1() + (Texts2() + (Texts3() + Texts4())))
  }

  function MiddleTexts(): seq<string> {
    Texts5() + (Texts6() + (Texts7() + (Texts8() + Texts9())))
  }

  function LastTexts(): seq<string> {
    Texts10() + (Texts11() + (Texts12() + (Texts13() + Texts14())))
  }

  /** The texts of the engines' reason codes and decisions. */
  function Standard(): seq<string> {
    FirstTexts() + (MiddleTexts() + LastTexts())
  }

  /** Plain texts in order. */
  predicate IsStretch(s: seq<string>) {
    s != [] && AllPlain(s) && Climbs(s)
  }

  predicate Precedes(a: seq<string>, b: seq<string>) {
    a != [] && b != [] && LexLess(a[|a| - 1], b[0])
  }

  lemma StretchesJoin(a: seq<string>, b: seq<string>)
    requires IsStretch(a) && IsStretch(b) && Precedes(a, b)
    ensures IsStretch(a + b) && (a + b)[0] == a[0] && (a + b)[|a + b| - 1] == b[|b| - 1]
  {
  }

  lemma RefusalBeforeRefuse()
    ensures LexLess(Join("refusalgraph", Join("high", "caution")), Join("refuse", "transaction"))
  {
    PartInFirst("refusalgraph", "refuse", Join("high", "caution"), "transaction", 5);
  }

  lemma IntentBeforeRequest()
    ensures LexLess(Join("payment", Join("intent", "unclear")), Join("payment", "requested"))
  {
    LexAt("intent", "requested", "_" + "unclear", "", 0);
    assert Join("intent", "unclear") == "intent" + ("_" + "unclear") && "requested" == "requested" + "";
    SameFirst("payment", Join("intent", "unclear"), "requested");
  }

  lemma CapBeforeClarify(x: string, y: string)
    ensures LexLess(Join("cap", x), Join("clarify", y))
  {
    PartInFirst("cap", "clarify", x, y, 1);
  }

  lemma ClarifyBeforeCreate(x: string, y: string)
    ensures LexLess(Join("clarify", x), Join("create", y))
  {
    PartInFirst("clarify", "create", x, y, 1);
  }

  lemma CreateBeforeCustomer(x: string, y: string)
    ensures LexLess(Join("create", x), Join("customer", y))
  {
    PartInFirst("create", "customer", x, y, 1);
  }

  lemma DeploymentBeforeDraft(x: string, y: string)
    ensures LexLess(Join("deployment", x), Join("draft", y))
  {
    PartInFirst("deployment", "draft", x, y, 1);
  }

  lemma MissingBeforeMoney(x: string, y: string)
    ensures LexLess(Join("missing", x), Join("money", y))
  {
    PartInFirst("missing", "money", x, y, 1);
  }

  lemma PaymentBeforePrivate(x: string, y: string)
    ensures LexLess(Join("payment", x), Join("private", y))
  {
    PartInFirst("payment", "private", x, y, 1);
  }

  lemma PrivateBeforePublishing(x: string, y: string)
    ensures LexLess(Join("private", x), Join("publishing", y))
  {
    PartInFirst("private", "publishing", x, y, 1);
  }

  lemma RefuseBeforeRequire(x: string, y: string)
    ensures LexLess(Join("refuse", x), Join("require", y))
  {
    PartInFirst("refuse", "require", x, y, 2);
  }

  lemma SettlementBeforeSignup(x: string, y: string)
    ensures LexLess(Join("settlement", x), Join("signup", y))
  {
    PartInFirst("settlement", "signup", x, y, 1);
  }

  // One lemma for each stretch: its texts are plain and in order, and it precedes the next one.

  lemma Stretch0()
    ensures IsStretch(Texts0()) && Precedes(Texts0(), Texts1())
  {
    Phrase3("accept", "with", "limits");
    Phrase3("automatic", "purchase", "requested");
    PartInFirst("automatic", "billing", Join("purchase", "requested"), "requested", 0);
  }

  lemma Stretch1()
    ensures IsStretch(Texts1()) && Precedes(Texts1(), Texts2())
  {
    Phrase2("billing", "requested");
    Phrase3("cap", "spend", "limit");
    PartInFirst("billing", "cap", "requested", Join("spend", "limit"), 0);
    CapBeforeClarify(Join("spend", "limit"), Join("payment", "intent"));
  }

  lemma Stretch2()
    ensures IsStretch(Texts2()) && Precedes(Texts2(), Texts3())
  {
    Phrase3("clarify", "payment", "intent");
    Phrase3("create", "receipt", "only");
    ClarifyBeforeCreate(Join("payment", "intent"), Join("receipt", "only"));
    CreateBeforeCustomer(Join("receipt", "only"), Join("facing", "action"));
  }

  lemma Stretch3()
    ensures IsStretch(Texts3()) && Precedes(Texts3(), Texts4())
  {
    Phrase3("customer", "facing", "action");
    Phrase2("deployment", "requested");
    PartInFirst("customer", "deployment", Join("facing", "action"), "requested", 0);
    DeploymentBeforeDraft("requested", Join("only", Join("not", "executed")));
  }

  lemma Stretch4()
    ensures IsStretch(Texts4()) && Precedes(Texts4(), Texts5())
  {
    Phrase4("draft", "only", "not", "executed");
    Phrase3("external", "connection", "requested");
    PartInFirst("draft", "external", Join("only", Join("not", "executed")), Join("connection", "requested"), 0);
    PartInFirst("external", "high", Join("connection", "requested"), Join("risk", "action"), 0);
  }

  lemma Stretch5()
    ensures IsStretch(Texts5()) && Precedes(Texts5(), Texts6())
  {
    Phrase3("high", "risk", "action");
    Phrase2("keep", "blocked");
    PartInFirst("high", "keep", Join("risk", "action"), "blocked", 0);
    PartInFirst("keep", "low", "blocked", Join("risk", Join("receipt", "only")), 0);
  }

  lemma Stretch6()
    ensures IsStretch(Texts6()) && Precedes(Texts6(), Texts7())
  {
    Phrase4("low", "risk", "receipt", "only");
    Phrase2("missing", "evidence");
    PartInFirst("low", "missing", Join("risk", Join("receipt", "only")), "evidence", 0);
    LexAt("evidence", "human", "", "_" + "approval", 0);
    assert "evidence" == "evidence" + "" && Join("human", "approval") == "human" + ("_" + "approval");
    SameFirst("missing", "evidence", Join("human", "approval"));
  }

  lemma Stretch7()
    ensures IsStretch(Texts7()) && Precedes(Texts7(), Texts8())
  {
    Phrase3("missing", "human", "approval");
    Phrase3("money", "movement", "requested");
    MissingBeforeMoney(Join("human", "approval"), Join("movement", "requested"));
    PartInFirst("money", "payment", Join("movement", "requested"), Join("intent", "unclear"), 0);
  }

  lemma Plain8()
    ensures IsPhrase(Join("payment", Join("intent", "unclear")))
    ensures IsPhrase(Join("payment", "requested"))
  {
    Phrase3("payment", "intent", "unclear");
    Phrase2("payment", "requested");
  }

  lemma Stretch8()
    ensures IsStretch(Texts8()) && Precedes(Texts8(), Texts9())
  {
    Plain8();
    IntentBeforeRequest();
    PaymentBeforePrivate("requested", Join("data", Join("access", "requested")));
  }

  lemma Stretch9()
    ensures IsStretch(Texts9()) && Precedes(Texts9(), Texts10())
  {
    Phrase4("private", "data", "access", "requested");
    Phrase2("publishing", "requested");
    PrivateBeforePublishing(Join("data", Join("access", "requested")), "requested");
    PartInFirst("publishing", "refusalgraph", "requested", Join("critical", "caution"), 0);
  }

  lemma Plain10()
    ensures IsPhrase(Join("refusalgraph", Join("critical", "caution")))
    ensures IsPhrase(Join("refusalgraph", Join("high", "caution")))
  {
    Phrase3("refusalgraph", "critical", "caution");
    Phrase3("refusalgraph", "high", "caution");
  }

  lemma CriticalBeforeHigh()
    ensures LexLess(Join("refusalgraph", Join("critical", "caution")), Join("refusalgraph", Join("high", "caution")))
  {
    PartInFirst("critical", "high", "caution", "caution", 0);
    SameFirst("refusalgraph", Join("critical", "caution"), Join("high", "caution"));
  }

  lemma Stretch10()
    ensures IsStretch(Texts10()) && Precedes(Texts10(), Texts11())
  {
    Plain10();
    CriticalBeforeHigh();
    RefusalBeforeRefuse();
  }

  lemma Stretch11()
    ensures IsStretch(Texts11()) && Precedes(Texts11(), Texts12())
  {
    Phrase2("refuse", "transaction");
    Phrase3("require", "human", "approval");
    RefuseBeforeRequire("transaction", Join("human", "approval"));
    PartInFirst("human", "identity", "approval", "verification", 0);
    SameFirst("require", Join("human", "approval"), Join("identity", "verification"));
  }

  lemma Stretch12()
    ensures IsStretch(Texts12()) && Precedes(Texts12(), Texts13())
  {
    Phrase3("require", "identity", "verification");
    Phrase3("require", "more", "evidence");
    PartInFirst("identity", "more", "verification", "evidence", 0);
    SameFirst("require", Join("identity", "verification"), Join("more", "evidence"));
    PartInFirst("require", "settlement", Join("more", "evidence"), "requested", 0);
  }

  lemma Stretch13()
    ensures IsStretch(Texts13()) && Precedes(Texts13(), Texts14())
  {
    Phrase2("settlement", "requested");
    Phrase2("signup", "requested");
    SettlementBeforeSignup("requested", "requested");
    PartInFirst("signup", "unknown", "requested", Join("or", Join("unclear", "intent")), 0);
  }

  lemma Stretch14()
    ensures IsStretch(Texts14())
  {
    Phrase4("unknown", "or", "unclear", "intent");
    Phrase4("weak", "or", "missing", "identity");
    PartInFirst("unknown", "weak", Join("or", Join("unclear", "intent")), Join("or", Join("missing", "identity")), 0);
  }

  lemma FirstTextsStretch()
    ensures IsStretch(FirstTexts()) && |FirstTexts()| == 10
    ensures FirstTexts()[0] == Texts0()[0] && FirstTexts()[9] == Texts4()[1]
  {
    Stretch0();
    Stretch1();
    Stretch2();
    Stretch3();
    Stretch4();
    StretchesJoin(Texts3(), Texts4());
    StretchesJoin(Texts2(), Texts3() + Texts4());
    StretchesJoin(Texts1(), Texts2() + (Texts3() + Texts4()));
    StretchesJoin(Texts0(), Texts1() + (Texts2() + (Texts3() + Texts4())));
  }

  lemma MiddleTextsStretch()
    ensures IsStretch(MiddleTexts()) && |MiddleTexts()| == 10
    ensures MiddleTexts()[0] == Texts5()[0] && MiddleTexts()[9] == Texts9()[1]
  {
    Stretch5();
    Stretch6();
    Stretch7();
    Stretch8();
    Stretch9();
    StretchesJoin(Texts8(), Texts9());
    StretchesJoin(Texts7(), Texts8() + Texts9());
    StretchesJoin(Texts6(), Texts7() + (Texts8() + Texts9()));
    StretchesJoin(Texts5(), Texts6() + (Texts7() + (Texts8() + Texts9())));
  }

  lemma LastTextsStretch()
    ensures IsStretch(LastTexts()) && |LastTexts()| == 10
    ensures LastTexts()[0] == Texts10()[0] && LastTexts()[9] == Texts14()[1]
  {
    Stretch10();
    Stretch11();
    Stretch12();
    Stretch13();
    Stretch14();
    StretchesJoin(Texts13(), Texts14());
    StretchesJoin(Texts12(), Texts13() + Texts14());
    StretchesJoin(Texts11(), Texts12() + (Texts13() + Texts14()));
    StretchesJoin(Texts10(), Texts11() + (Texts12() + (Texts13() + Texts14())));
  }

  /** The texts the engines use are a vocabulary: plain tokens in alphabetical order. */
  lemma StandardIsVocabulary()
    ensures IsVocabulary(Standard())
  {
    FirstTextsStretch();
    MiddleTextsStretch();
    LastTextsStretch();
    Stretch9();
    StretchesJoin(MiddleTexts(), LastTexts());
    Stretch4();
    StretchesJoin(FirstTexts(), MiddleTexts() + LastTexts());
  }
}
