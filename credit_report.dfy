/** `extractCreditReportData`: builds the normalized credit report (basic
    details, report summary, one record per credit account) from the xml2js
    tree of an Experian `INProfileResponse` document. */
module CreditReport {
  import opened Tree
  import opened PathResolver

  datatype BasicDetails = BasicDetails(
    name: string,
    mobileNumber: string,
    pan: string,
    creditScore: string)

  datatype ReportSummary = ReportSummary(
    totalNumberOfAccounts: string,
    activeAccounts: string,
    closedAccounts: string,
    currentBalanceAmount: string,
    securedAccountsAmount: string,
    unsecuredAccountsAmount: string,
    last7DaysCreditEnquiries: string)

  datatype CreditCard = CreditCard(
    bankName: string,
    accountNumber: string,
    accountType: string,
    portfolioType: string)

  datatype Address = Address(
    line1: string,
    line2: string,
    line3: string,
    city: string,
    state: string,
    pincode: string)

  datatype CreditAccount = CreditAccount(
    creditCard: CreditCard,
    openDate: string,
    closedDate: string,
    creditLimit: string,
    highestCredit: string,
    currentBalance: string,
    amountOverdue: string,
    accountStatus: string,
    dateReported: string,
    address: Address)

  datatype Report = Report(
    basicDetails: BasicDetails,
    reportSummary: ReportSummary,
    creditAccounts: seq<CreditAccount>)

  /** The two places where the extraction throws a TypeError on a parsed tree
      (a null document, the third, is not modelled). */
  datatype ExtractError =
    | MissingEnvelope        // `parsedXml.INProfileResponse` is undefined
    | AccountDetailsNotArray // `CAIS_Account_DETAILS` is truthy but has no `.map`

  datatype Result<T> = Ok(value: T) | Err(error: ExtractError)

  const BlankAddress := Address("", "", "", "", "", "")

  // ---------------------------------------------------------------------------
  // JavaScript idioms of the extraction

  /** One optional-chaining step `e?.[key]` (also written `e?.key`): nothing
      when e is nothing, otherwise the property. */
  function Then(e: Option<Node>, key: string): Option<Node> {
    match e
    case None => None
    case Some(v) => Get(v, key)
  }

  /** `e || {}`: never falsy, so the lookups that follow it never stop at the
      value itself. */
  function OrEmpty(e: Option<Node>): (r: Node)
    ensures Truthy(r)
    ensures e.Some? && Truthy(e.value) ==> r == e.value
    ensures !(e.Some? && Truthy(e.value)) ==> r == EmptyMap
  {
    match e
    case Some(v) => if Truthy(v) then v else EmptyMap
    case None => EmptyMap
  }

  /** Whitespace as `String.prototype.trim` removes it: the ECMAScript
      WhiteSpace and LineTerminator characters. */
  predicate IsWhitespace(c: char) {
    ('\t' <= c <= '\r') || c == ' ' || c == '\U{00A0}' || c == '\U{1680}' ||
    ('\U{2000}' <= c <= '\U{200A}') || c == '\U{2028}' || c == '\U{2029}' ||
    c == '\U{202F}' || c == '\U{205F}' || c == '\U{3000}' || c == '\U{FEFF}'
  }

  /** Drops leading whitespace. */
  function TrimStart(s: string): string {
    if s != [] && IsWhitespace(s[0]) then TrimStart(s[1..]) else s
  }

  /** Drops trailing whitespace. */
  function TrimEnd(s: string): string {
    if s != [] && IsWhitespace(s[|s| - 1]) then TrimEnd(s[..|s| - 1]) else s
  }

  /** `s.trim()`. */
  function Trim(s: string): string {
    TrimEnd(TrimStart(s))
  }

  /** TrimStart drops a whitespace prefix, and exactly that: what is left is a
      suffix of s that does not start with whitespace. */
  lemma {:induction false} TrimStartDropsPrefix(s: string)
    ensures var r := TrimStart(s);
            |r| <= |s| && r == s[|s| - |r|..] &&
            (r == [] || !IsWhitespace(r[0])) &&
            forall i :: 0 <= i < |s| - |r| ==> IsWhitespace(s[i])
  {
    if s != [] && IsWhitespace(s[0]) {
      var t := s[1..];
      TrimStartDropsPrefix(t);
      var r := TrimStart(t);
      assert TrimStart(s) == r;
      assert t[|t| - |r|..] == s[|s| - |r|..];
      forall i | 0 <= i < |s| - |r| ensures IsWhitespace(s[i]) {
        if i > 0 {
          assert s[i] == t[i - 1];
        }
      }
    }
  }

  /** TrimEnd drops a whitespace suffix, and exactly that: what is left is a
      prefix of s that does not end with whitespace. */
  lemma {:induction false} TrimEndDropsSuffix(s: string)
    ensures var r := TrimEnd(s);
            |r| <= |s| && r == s[..|r|] &&
            (r == [] || !IsWhitespace(r[|r| - 1])) &&
            forall i :: |r| <= i < |s| ==> IsWhitespace(s[i])
  {
    if s != [] && IsWhitespace(s[|s| - 1]) {
      var t := s[..|s| - 1];
      TrimEndDropsSuffix(t);
      var r := TrimEnd(t);
      assert TrimEnd(s) == r;
      assert t[..|r|] == s[..|r|];
      forall i | |r| <= i < |s| ensures IsWhitespace(s[i]) {
        if i < |t| {
          assert s[i] == t[i];
        }
      }
    }
  }

  /** What `trim` removes is whitespace only: the result is the slice of s
      between a whitespace prefix and a whitespace suffix, and it neither starts
      nor ends with whitespace. */
  lemma TrimIsSlice(s: string) returns (i: nat)
    ensures i + |Trim(s)| <= |s| && Trim(s) == s[i..i + |Trim(s)|]
    ensures forall j :: 0 <= j < i ==> IsWhitespace(s[j])
    ensures forall j :: i + |Trim(s)| <= j < |s| ==> IsWhitespace(s[j])
    ensures Trim(s) == [] || (!IsWhitespace(Trim(s)[0]) && !IsWhitespace(Trim(s)[|Trim(s)| - 1]))
  {
    var t := TrimStart(s);
    TrimStartDropsPrefix(s);
    var r := TrimEnd(t);
    TrimEndDropsSuffix(t);
    i := |s| - |t|;
    SuffixThenPrefix(s, t, r);
  }

  /** A prefix r of a suffix t of s, where s only adds whitespace after r. */
  lemma SuffixThenPrefix(s: string, t: string, r: string)
    requires |r| <= |t| <= |s| && t == s[|s| - |t|..] && r == t[..|r|]
    requires forall j :: |r| <= j < |t| ==> IsWhitespace(t[j])
    requires r != [] ==> !IsWhitespace(t[0])
    ensures var i := |s| - |t|;
            r == s[i..i + |r|] && (r != [] ==> r[0] == t[0]) &&
            forall j :: i + |r| <= j < |s| ==> IsWhitespace(s[j])
  {
  }

  // ---------------------------------------------------------------------------
  // Basic details (functions.ts:21-34)

  /** `Current_Application[0].Current_Application_Details[0].Current_Applicant_Details[0] || {}`. */
  function CurrentApplicant(root: Node): Node {
    var details := Then(Then(Get(root, "Current_Application"), "0"), "Current_Application_Details");
    OrEmpty(Then(Then(Then(details, "0"), "Current_Applicant_Details"), "0"))
  }

  /** `CAIS_Account[0].CAIS_Account_DETAILS[0].CAIS_Holder_Details[0] || {}`. */
  function FirstHolder(root: Node): Node {
    var accounts := Then(Then(Get(root, "CAIS_Account"), "0"), "CAIS_Account_DETAILS");
    OrEmpty(Then(Then(Then(accounts, "0"), "CAIS_Holder_Details"), "0"))
  }

  /** `name`: "First Last", trimmed. */
  function FullName(applicant: Node): string {
    Trim(NestedValue(applicant, "First_Name") + " " + NestedValue(applicant, "Last_Name"))
  }

  /** `creditScore`: `BureauScore` of the first `SCORE` element. */
  function CreditScore(root: Node): string {
    NestedValue(root, "SCORE.0.BureauScore")
  }

  function BasicDetailsOf(root: Node): BasicDetails {
    var applicant := CurrentApplicant(root);
    BasicDetails(
      name := FullName(applicant),
      mobileNumber := NestedValue(applicant, "MobilePhoneNumber"),
      pan := NestedValue(FirstHolder(root), "Income_TAX_PAN"),
      creditScore := CreditScore(root))
  }

  // ---------------------------------------------------------------------------
  // Report summary (functions.ts:36-59)

  /** `CAIS_Account[0].CAIS_Summary[0] || {}`. */
  function CaisSummary(root: Node): Node {
    OrEmpty(Then(Then(Then(Get(root, "CAIS_Account"), "0"), "CAIS_Summary"), "0"))
  }

  /** `caisSummary.Credit_Account[0] || {}`. */
  function CreditAccountNode(root: Node): Node {
    OrEmpty(Then(Get(CaisSummary(root), "Credit_Account"), "0"))
  }

  /** `caisSummary.Total_Outstanding_Balance[0] || {}`. */
  function TotalOutstandingNode(root: Node): Node {
    OrEmpty(Then(Get(CaisSummary(root), "Total_Outstanding_Balance"), "0"))
  }

  /** `TotalCAPS_Summary[0] || {}`, a sibling of `CAIS_Account`. */
  function CapsSummaryNode(root: Node): Node {
    OrEmpty(Then(Get(root, "TotalCAPS_Summary"), "0"))
  }

  function ReportSummaryOf(root: Node): ReportSummary {
    var creditAccount := CreditAccountNode(root);
    var totalOutstanding := TotalOutstandingNode(root);
    var caps := CapsSummaryNode(root);
    ReportSummary(
      totalNumberOfAccounts := NestedValue(creditAccount, "CreditAccountTotal"),
      activeAccounts := NestedValue(creditAccount, "CreditAccountActive"),
      closedAccounts := NestedValue(creditAccount, "CreditAccountClosed"),
      currentBalanceAmount := NestedValue(totalOutstanding, "Outstanding_Balance_All"),
      securedAccountsAmount := NestedValue(totalOutstanding, "Outstanding_Balance_Secured"),
      unsecuredAccountsAmount := NestedValue(totalOutstanding, "Outstanding_Balance_UnSecured"),
      last7DaysCreditEnquiries := NestedValue(caps, "TotalCAPSLast7Days"))
  }

  // ---------------------------------------------------------------------------
  // Credit accounts (functions.ts:61-111)

  /** `CAIS_Account[0].CAIS_Account_DETAILS || []`, and whether `.map` can be
      called on it: only an array (or the `[]` fallback) has one. */
  function AccountDetails(root: Node): Result<seq<Node>> {
    match Then(Then(Get(root, "CAIS_Account"), "0"), "CAIS_Account_DETAILS")
    case None => Ok([])
    case Some(v) =>
      if !Truthy(v) then Ok([])
      else if v.Seq? then Ok(v.items)
      else Err(AccountDetailsNotArray)
  }

  /** The six address fields of one address node. */
  function AddressFrom(a: Node): Address {
    Address(
      line1 := NestedValue(a, "First_Line_Of_Address_non_normalized"),
      line2 := NestedValue(a, "Second_Line_Of_Address_non_normalized"),
      line3 := NestedValue(a, "Third_Line_Of_Address_non_normalized"),
      city := NestedValue(a, "City_non_normalized"),
      state := NestedValue(a, "State_non_normalized"),
      pincode := NestedValue(a, "ZIP_Postal_Code_non_normalized"))
  }

  /** `account.CAIS_Holder_Address_Details?.[0] || {}`: the account's first
      listed address. */
  function AddressDetails(account: Node): Node {
    OrEmpty(Then(Get(account, "CAIS_Holder_Address_Details"), "0"))
  }

  function CreditCardOf(account: Node): CreditCard {
    CreditCard(
      bankName := NestedValue(account, "Subscriber_Name"),
      accountNumber := NestedValue(account, "Account_Number"),
      accountType := NestedValue(account, "Account_Type"),
      portfolioType := NestedValue(account, "Portfolio_Type"))
  }

  /** The record the `.map` callback builds for one account-detail element. */
  function AccountOf(account: Node): CreditAccount {
    CreditAccount(
      creditCard := CreditCardOf(account),
      openDate := NestedValue(account, "Open_Date"),
      closedDate := NestedValue(account, "Date_Closed"),
      creditLimit := NestedValue(account, "Credit_Limit_Amount"),
      highestCredit := NestedValue(account, "Highest_Credit_or_Original_Loan_Amount"),
      currentBalance := NestedValue(account, "Current_Balance"),
      amountOverdue := NestedValue(account, "Amount_Past_Due"),
      accountStatus := NestedValue(account, "Account_Status"),
      dateReported := NestedValue(account, "Date_Reported"),
      address := AddressFrom(AddressDetails(account)))
  }

  /** `xs.map(f)`: one result per element, in order, result i computed from
      element i alone. */
  function MapEach<A, B>(f: A -> B, xs: seq<A>): (r: seq<B>)
    ensures |r| == |xs|
    ensures forall i :: 0 <= i < |xs| ==> r[i] == f(xs[i])
  {
    if xs == [] then [] else [f(xs[0])] + MapEach(f, xs[1..])
  }

  // ---------------------------------------------------------------------------
  // The whole extraction (functions.ts:18-118)

  /** `extractCreditReportData(parsedXml)`: the report, or the TypeError the
      code runs into. */
  function ExtractCreditReportData(parsedXml: Node): (r: Result<Report>)
    ensures Get(parsedXml, "INProfileResponse").None? ==> r == Err(MissingEnvelope)
    ensures Get(parsedXml, "INProfileResponse").Some? && r.Err? ==> r == Err(AccountDetailsNotArray)
    ensures r.Ok? <==>
              Get(parsedXml, "INProfileResponse").Some? &&
              AccountDetails(Get(parsedXml, "INProfileResponse").value).Ok?
    ensures r.Ok? ==>
              var root := Get(parsedXml, "INProfileResponse").value;
              r.value.basicDetails == BasicDetailsOf(root) &&
              r.value.reportSummary == ReportSummaryOf(root) &&
              |r.value.creditAccounts| == |AccountDetails(root).value| &&
              forall i :: 0 <= i < |r.value.creditAccounts| ==>
                r.value.creditAccounts[i] == AccountOf(AccountDetails(root).value[i])
  {
    match Get(parsedXml, "INProfileResponse")
    case None => Err(MissingEnvelope)
    case Some(root) =>
      match AccountDetails(root)
      case Err(e) => Err(e)
      case Ok(details) =>
        Ok(Report(BasicDetailsOf(root), ReportSummaryOf(root), MapEach(AccountOf, details)))
  }
}
