/**
 The texts of the categories and actions of a clearing request.  They are plain tokens and differ, so that a token is
 read as the category or action whose text it is; any other token is read as the last one.
 */
module RequestTexts {
  import opened Primitives
  import opened Tokens
  import opened ClearingDecision
  import opened StandardTexts

  function CategoryText(c: Category): string {
    match c
    case FinancialAction => Join("financial", "action")
    case Payment => "payment"
    case Billing => "billing"
    case Settlement => "settlement"
    case AutomaticPurchase => Join("automatic", "purchase")
    case Deployment => "deployment"
    case Publishing => "publishing"
    case CustomerCommunication => Join("customer", "communication")
    case Signup => "signup"
    case DataAccess => Join("data", "access")
    case PrivateDataAccess => Join("private", Join("data", "access"))
    case ExternalConnection => Join("external", "connection")
    case InternalAction => Join("internal", "action")
    case OtherCategory => "other"
  }

  function CategoryMark(c: Category): Mark {
    match c
    case FinancialAction => Mark(16, 'f', 'n')
    case Payment => Mark(7, 'p', 't')
    case Billing => Mark(7, 'b', 'g')
    case Settlement => Mark(10, 's', 't')
    case AutomaticPurchase => Mark(18, 'a', 'e')
    case Deployment => Mark(10, 'd', 't')
    case Publishing => Mark(10, 'p', 'g')
    case CustomerCommunication => Mark(22, 'c', 'n')
    case Signup => Mark(6, 's', 'p')
    case DataAccess => Mark(11, 'd', 's')
    case PrivateDataAccess => Mark(19, 'p', 's')
    case ExternalConnection => Mark(19, 'e', 'n')
    case InternalAction => Mark(15, 'i', 'n')
    case OtherCategory => Mark(5, 'o', 'r')
  }

  lemma CategoryTextHasMark(c: Category)
    ensures CategoryText(c) != "" && MarkOf(CategoryText(c)) == CategoryMark(c)
  {
  }

  lemma CategoryTextsDiffer(c: Category, d: Category)
    ensures CategoryText(c) == CategoryText(d) <==> c == d
  {
    CategoryTextHasMark(c);
    CategoryTextHasMark(d);
  }

  lemma CategoryPhrase1(c: Category)
    requires c.FinancialAction? || c.Payment? || c.Billing? || c.Settlement? || c.AutomaticPurchase?
    ensures IsPlainToken(CategoryText(c))
  {
    match c
    case FinancialAction => Phrase2("financial", "action");
    case Payment => WordIsPlain("payment");
    case Billing => WordIsPlain("billing");
    case Settlement => WordIsPlain("settlement");
    case AutomaticPurchase => Phrase2("automatic", "purchase");
  }

  lemma CategoryPhrase2(c: Category)
    requires c.Deployment? || c.Publishing? || c.CustomerCommunication? || c.Signup? || c.DataAccess?
    ensures IsPlainToken(CategoryText(c))
  {
    match c
    case Deployment => WordIsPlain("deployment");
    case Publishing => WordIsPlain("publishing");
    case CustomerCommunication => Phrase2("customer", "communication");
    case Signup => WordIsPlain("signup");
    case DataAccess => Phrase2("data", "access");
  }

  lemma CategoryPhrase3(c: Category)
    requires c.PrivateDataAccess? || c.ExternalConnection? || c.InternalAction? || c.OtherCategory?
    ensures IsPlainToken(CategoryText(c))
  {
    match c
    case PrivateDataAccess => Phrase3("private", "data", "access");
    case ExternalConnection => Phrase2("external", "connection");
    case InternalAction => Phrase2("internal", "action");
    case OtherCategory => WordIsPlain("other");
  }

  lemma CategoryTextIsPlain(c: Category)
    ensures IsPlainToken(CategoryText(c))
  {
    match c
    case FinancialAction | Payment | Billing | Settlement | AutomaticPurchase => CategoryPhrase1(c);
    case Deployment | Publishing | CustomerCommunication | Signup | DataAccess => CategoryPhrase2(c);
    case PrivateDataAccess | ExternalConnection | InternalAction | OtherCategory => CategoryPhrase3(c);
  }

  function CategoryNamed(token: string): (r: Category)
    requires exists c: Category :: CategoryText(c) == token
    ensures CategoryText(r) == token
  {
    assert forall c: Category, d: Category :: CategoryText(c) == CategoryText(d) ==> c == d by {
      forall c: Category, d: Category ensures CategoryText(c) == CategoryText(d) ==> c == d {
        CategoryTextsDiffer(c, d);
      }
    }
    var r: Category :| CategoryText(r) == token;
    r
  }

  function ReadCategory(token: string): Category {
    if exists c: Category :: CategoryText(c) == token then CategoryNamed(token) else OtherCategory
  }

  /** The text of each is a plain token and is read as what it names; no other token is read as any but the last. */
  lemma CategoryTextsAreRead(c: Category, token: string)
    ensures IsPlainToken(CategoryText(c)) && ReadCategory(CategoryText(c)) == c
    ensures ReadCategory(token) == c ==> c.OtherCategory? || token == CategoryText(c)
  {
    CategoryTextIsPlain(c);
    CategoryTextsDiffer(c, ReadCategory(CategoryText(c)));
  }

  function ActionText(a: ActionType): string {
    match a
    case InitiatePayment => Join("initiate", "payment")
    case PayForTask => Join("pay", Join("for", "task"))
    case BuyService => Join("buy", "service")
    case EnableBilling => Join("enable", "billing")
    case SettleTransaction => Join("settle", "transaction")
    case PurchaseAutomatically => Join("automatic", "purchase")
    case DeployCode => Join("deploy", "code")
    case PublishContent => Join("publish", "content")
    case EmailCustomer => Join("email", "customer")
    case EnableSignup => Join("enable", "signup")
    case AccessData => Join("access", "data")
    case AccessPrivateData => Join("access", Join("private", "data"))
    case ConnectExternalSystem => Join("connect", Join("external", "system"))
    case InternalReview => Join("internal", "review")
    case OtherAction => "other"
  }

  function ActionMark(a: ActionType): Mark {
    match a
    case InitiatePayment => Mark(16, 'i', 't')
    case PayForTask => Mark(12, 'p', 'k')
    case BuyService => Mark(11, 'b', 'e')
    case EnableBilling => Mark(14, 'e', 'g')
    case SettleTransaction => Mark(18, 's', 'n')
    case PurchaseAutomatically => Mark(18, 'a', 'e')
    case DeployCode => Mark(11, 'd', 'e')
    case PublishContent => Mark(15, 'p', 't')
    case EmailCustomer => Mark(14, 'e', 'r')
    case EnableSignup => Mark(13, 'e', 'p')
    case AccessData => Mark(11, 'a', 'a')
    case AccessPrivateData => Mark(19, 'a', 'a')
    case ConnectExternalSystem => Mark(23, 'c', 'm')
    case InternalReview => Mark(15, 'i', 'w')
    case OtherAction => Mark(5, 'o', 'r')
  }

  lemma ActionTextHasMark(a: ActionType)
    ensures ActionText(a) != "" && MarkOf(ActionText(a)) == ActionMark(a)
  {
  }

  lemma ActionTextsDiffer(a: ActionType, b: ActionType)
    ensures ActionText(a) == ActionText(b) <==> a == b
  {
    ActionTextHasMark(a);
    ActionTextHasMark(b);
  }

  lemma ActionPhrase1(a: ActionType)
    requires a.InitiatePayment? || a.PayForTask? || a.BuyService? || a.EnableBilling? || a.SettleTransaction?
    ensures IsPlainToken(ActionText(a))
  {
    match a
    case InitiatePayment => Phrase2("initiate", "payment");
    case PayForTask => Phrase3("pay", "for", "task");
    case BuyService => Phrase2("buy", "service");
    case EnableBilling => Phrase2("enable", "billing");
    case SettleTransaction => Phrase2("settle", "transaction");
  }

  lemma ActionPhrase2(a: ActionType)
    requires a.PurchaseAutomatically? || a.DeployCode? || a.PublishContent? || a.EmailCustomer? || a.EnableSignup?
    ensures IsPlainToken(ActionText(a))
  {
    match a
    case PurchaseAutomatically => Phrase2("automatic", "purchase");
    case DeployCode => Phrase2("deploy", "code");
    case PublishContent => Phrase2("publish", "content");
    case EmailCustomer => Phrase2("email", "customer");
    case EnableSignup => Phrase2("enable", "signup");
  }

  lemma ActionPhrase3(a: ActionType)
    requires a.AccessData? || a.AccessPrivateData? || a.ConnectExternalSystem? || a.InternalReview? || a.OtherAction?
    ensures IsPlainToken(ActionText(a))
  {
    match a
    case AccessData => Phrase2("access", "data");
    case AccessPrivateData => Phrase3("access", "private", "data");
    case ConnectExternalSystem => Phrase3("connect", "external", "system");
    case InternalReview => Phrase2("internal", "review");
    case OtherAction => WordIsPlain("other");
  }

  lemma ActionTextIsPlain(a: ActionType)
    ensures IsPlainToken(ActionText(a))
  {
    match a
    case InitiatePayment | PayForTask | BuyService | EnableBilling | SettleTransaction => ActionPhrase1(a);
    case PurchaseAutomatically | DeployCode | PublishContent | EmailCustomer | EnableSignup => ActionPhrase2(a);
    case AccessData | AccessPrivateData | ConnectExternalSystem | InternalReview | OtherAction => ActionPhrase3(a);
  }

  function ActionNamed(token: string): (r: ActionType)
    requires exists a: ActionType :: ActionText(a) == token
    ensures ActionText(r) == token
  {
    assert forall a: ActionType, b: ActionType :: ActionText(a) == ActionText(b) ==> a == b by {
      forall a: ActionType, b: ActionType ensures ActionText(a) == ActionText(b) ==> a == b {
        ActionTextsDiffer(a, b);
      }
    }
    var r: ActionType :| ActionText(r) == token;
    r
  }

  function ReadAction(token: string): ActionType {
    if exists a: ActionType :: ActionText(a) == token then ActionNamed(token) else OtherAction
  }

  /** The text of each is a plain token and is read as what it names; no other token is read as any but the last. */
  lemma ActionTextsAreRead(a: ActionType, token: string)
    ensures IsPlainToken(ActionText(a)) && ReadAction(ActionText(a)) == a
    ensures ReadAction(token) == a ==> a.OtherAction? || token == ActionText(a)
  {
    ActionTextIsPlain(a);
    ActionTextsDiffer(a, ReadAction(ActionText(a)));
  }
}
