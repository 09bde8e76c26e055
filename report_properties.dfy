/** What the extraction promises: every field degrades to "" on its own, the
    account list mirrors the source array, an account's address comes from its
    own first address entry, and small documents worked through in full. */
module ReportProperties {
  import opened Tree
  import opened PathResolver
  import opened CreditReport

  /** No whitespace at either end (what `trim` leaves). */
  predicate Trimmed(s: string) {
    s == [] || (!IsWhitespace(s[0]) && !IsWhitespace(s[|s| - 1]))
  }

  /** `${first} ${last}`.trim() joins two trimmed names with one space, and drops
      the space when either name is empty. */
  lemma TrimJoin(first: string, last: string)
    requires Trimmed(first) && Trimmed(last)
    ensures Trim(first + " " + last) ==
              if first == "" then last
              else if last == "" then first
              else first + " " + last
  {
    var s := first + " " + last;
    if first == "" {
      assert s[1..] == last && IsWhitespace(s[0]);
      assert TrimStart(s) == last;
    } else if last == "" {
      assert s[0] == first[0] && TrimStart(s) == s;
      assert s[..|s| - 1] == first && IsWhitespace(s[|s| - 1]);
      assert TrimEnd(s) == TrimEnd(first) == first;
    } else {
      assert s[0] == first[0] && TrimStart(s) == s;
      assert s[|s| - 1] == last[|last| - 1];
    }
  }

  /** `basicDetails.name` of an applicant node: both names missing give "",
      one missing gives the other alone, otherwise "First Last"; the name never
      starts or ends with whitespace. */
  lemma NameJoin(applicant: Node)
    ensures var first := NestedValue(applicant, "First_Name");
            var last := NestedValue(applicant, "Last_Name");
            Trimmed(first) && Trimmed(last) ==>
              FullName(applicant) ==
                if first == "" then last else if last == "" then first else first + " " + last
    ensures Trimmed(FullName(applicant))
  {
    var first := NestedValue(applicant, "First_Name");
    var last := NestedValue(applicant, "Last_Name");
    if Trimmed(first) && Trimmed(last) {
      TrimJoin(first, last);
    }
    var _ := TrimIsSlice(first + " " + last);
  }

  /** `pan` is read from the first holder-details node of the first account. */
  lemma PanFromFirstHolder(root: Node, details: Node, holder: Node)
    requires Then(Then(Get(root, "CAIS_Account"), "0"), "CAIS_Account_DETAILS") == Some(details)
    requires Then(Then(Then(Some(details), "0"), "CAIS_Holder_Details"), "0") == Some(holder)
    ensures BasicDetailsOf(root).pan == NestedValue(holder, "Income_TAX_PAN")
  {
  }

  /** `creditScore` is `BureauScore` of the first element of `SCORE`, and ""
      when either is missing. */
  lemma ScoreFromFirstScore(root: Node)
    ensures CreditScore(root) ==
              match Step(root, "SCORE")
              case None => ""
              case Some(scores) =>
                match Step(scores, "0")
                case None => ""
                case Some(first) => NestedValue(first, "BureauScore")
  {
    assert "SCORE.0.BureauScore" == "SCORE" + "." + ("0" + "." + "BureauScore");
    Decompose(root, "SCORE", "0" + "." + "BureauScore");
    match Step(root, "SCORE")
    case None =>
    case Some(scores) => Decompose(scores, "0", "BureauScore");
  }

  /** Without a `SCORE` element the credit score is "". */
  lemma ScoreMissing(root: Node)
    requires Get(root, "SCORE").None?
    ensures CreditScore(root) == ""
  {
    ScoreFromFirstScore(root);
  }

  /** A missing `Credit_Account`, `Total_Outstanding_Balance` or
      `TotalCAPS_Summary` blanks exactly the fields read from it. */
  lemma MissingSubtreeBlanksOwnFields(root: Node)
    ensures Get(CaisSummary(root), "Credit_Account").None? ==>
              var s := ReportSummaryOf(root);
              s.totalNumberOfAccounts == "" && s.activeAccounts == "" && s.closedAccounts == ""
    ensures Get(CaisSummary(root), "Total_Outstanding_Balance").None? ==>
              var s := ReportSummaryOf(root);
              s.currentBalanceAmount == "" && s.securedAccountsAmount == "" &&
              s.unsecuredAccountsAmount == ""
    ensures Get(root, "TotalCAPS_Summary").None? ==>
              ReportSummaryOf(root).last7DaysCreditEnquiries == ""
  {
    EmptyResolvesEmpty("CreditAccountTotal");
    EmptyResolvesEmpty("CreditAccountActive");
    EmptyResolvesEmpty("CreditAccountClosed");
    EmptyResolvesEmpty("Outstanding_Balance_All");
    EmptyResolvesEmpty("Outstanding_Balance_Secured");
    EmptyResolvesEmpty("Outstanding_Balance_UnSecured");
    EmptyResolvesEmpty("TotalCAPSLast7Days");
  }

  /** The three groups of summary fields degrade independently: each group is
      fixed by its own subtree, whatever the other two hold. */
  lemma SummaryGroupsIndependent(r1: Node, r2: Node)
    ensures CreditAccountNode(r1) == CreditAccountNode(r2) ==>
              var s1, s2 := ReportSummaryOf(r1), ReportSummaryOf(r2);
              s1.totalNumberOfAccounts == s2.totalNumberOfAccounts &&
              s1.activeAccounts == s2.activeAccounts && s1.closedAccounts == s2.closedAccounts
    ensures TotalOutstandingNode(r1) == TotalOutstandingNode(r2) ==>
              var s1, s2 := ReportSummaryOf(r1), ReportSummaryOf(r2);
              s1.currentBalanceAmount == s2.currentBalanceAmount &&
              s1.securedAccountsAmount == s2.securedAccountsAmount &&
              s1.unsecuredAccountsAmount == s2.unsecuredAccountsAmount
    ensures CapsSummaryNode(r1) == CapsSummaryNode(r2) ==>
              ReportSummaryOf(r1).last7DaysCreditEnquiries ==
              ReportSummaryOf(r2).last7DaysCreditEnquiries
  {
  }

  /** `{}` and "" give a blank address. */
  lemma BlankAddressOfEmpty()
    ensures AddressFrom(EmptyMap) == BlankAddress
    ensures AddressFrom(Str("")) == BlankAddress
  {
    EmptyResolvesEmpty("First_Line_Of_Address_non_normalized");
    EmptyResolvesEmpty("Second_Line_Of_Address_non_normalized");
    EmptyResolvesEmpty("Third_Line_Of_Address_non_normalized");
    EmptyResolvesEmpty("City_non_normalized");
    EmptyResolvesEmpty("State_non_normalized");
    EmptyResolvesEmpty("ZIP_Postal_Code_non_normalized");
  }

  /** An account's address comes from the first entry of its own
      `CAIS_Holder_Address_Details` array; later entries are ignored. */
  lemma AddressFromFirstEntry(account: Node, first: Node, more: seq<Node>)
    requires Get(account, "CAIS_Holder_Address_Details") == Some(Seq([first] + more))
    ensures AccountOf(account).address == AddressFrom(first)
  {
    assert AddressDetails(account) == OrEmpty(Some(first)) by {
      ParseIndexZero();
    }
    assert AddressFrom(OrEmpty(Some(first))) == AddressFrom(first) by {
      if !Truthy(first) {
        BlankAddressOfEmpty();
      }
    }
  }

  /** Without an address entry all six address fields are "". */
  lemma AddressBlankWithoutEntries(account: Node)
    requires Get(account, "CAIS_Holder_Address_Details").None? ||
             Get(account, "CAIS_Holder_Address_Details") == Some(Seq([]))
    ensures AccountOf(account).address == BlankAddress
  {
    assert AddressDetails(account) == EmptyMap by {
      ParseIndexZero();
    }
    BlankAddressOfEmpty();
  }

  /** The account list is the account-detail array mapped element by element,
      in order, whatever the rest of the envelope holds. */
  lemma AccountsFollowDetails(parsedXml: Node, root: Node, details: seq<Node>)
    requires Get(parsedXml, "INProfileResponse") == Some(root)
    requires AccountDetails(root) == Ok(details)
    ensures ExtractCreditReportData(parsedXml).Ok?
    ensures ExtractCreditReportData(parsedXml).value.creditAccounts == MapEach(AccountOf, details)
  {
  }

  /** The report of an envelope that holds none of the four top-level sections
      the extraction reads: every field "", no accounts. */
  lemma EmptyEnvelopeGivesBlankReport(parsedXml: Node, root: Node)
    requires Get(parsedXml, "INProfileResponse") == Some(root)
    requires Get(root, "Current_Application").None? && Get(root, "CAIS_Account").None?
    requires Get(root, "SCORE").None? && Get(root, "TotalCAPS_Summary").None?
    ensures ExtractCreditReportData(parsedXml) ==
              Ok(Report(BasicDetails("", "", "", ""),
                        ReportSummary("", "", "", "", "", "", ""),
                        []))
  {
    assert CurrentApplicant(root) == EmptyMap && FirstHolder(root) == EmptyMap;
    assert BasicDetailsOf(root) == BasicDetails("", "", "", "") by {
      EmptyResolvesEmpty("First_Name");
      EmptyResolvesEmpty("Last_Name");
      TrimJoin("", "");
      EmptyResolvesEmpty("MobilePhoneNumber");
      EmptyResolvesEmpty("Income_TAX_PAN");
      ScoreFromFirstScore(root);
    }
    assert ReportSummaryOf(root) == ReportSummary("", "", "", "", "", "", "") by {
      MissingSubtreeBlanksOwnFields(root);
    }
    assert AccountDetails(root) == Ok([]);
  }
}

/** Small documents worked through in full: a names-only applicant, two
    numbered accounts, and a summary that sets only its total. */
module ReportScenarios {
  import opened Tree
  import opened PathResolver
  import opened CreditReport
  import opened ReportProperties

  /** `{ key: [value] }`, the xml2js form of an element with one child. */
  function Field(key: string, value: Node): Node {
    Map(map[key := Seq([value])])
  }

  /** An applicant node with a first and a last name and nothing else. */
  function NamesOnlyApplicant(first: string, last: string): Node {
    Map(map["First_Name" := Seq([Str(first)]), "Last_Name" := Seq([Str(last)])])
  }

  /** An envelope holding only an applicant with a first and a last name
      and nothing else anywhere. */
  function NamesOnlyRoot(first: string, last: string): Node {
    Field("Current_Application",
      Field("Current_Application_Details",
        Field("Current_Applicant_Details", NamesOnlyApplicant(first, last))))
  }

  /** Following `key` then "0" into `{ key: [value] }` reaches value. */
  lemma FieldFirst(key: string, value: Node)
    ensures Then(Then(Some(Field(key, value)), key), "0") == Some(value)
  {
  }

  lemma NamesOnlyFindsApplicant(first: string, last: string)
    ensures CurrentApplicant(NamesOnlyRoot(first, last)) == NamesOnlyApplicant(first, last)
  {
  }

  /** A field `k: ["x"]` resolves to "x". */
  lemma TextField(v: Node, k: string, x: string)
    requires '.' !in k && Get(v, k) == Some(Seq([Str(x)]))
    ensures NestedValue(v, k) == x
  {
    ResolveKey(v, k);
    ParseIndexZero();
  }

  /** An absent field resolves to "". */
  lemma AbsentField(v: Node, k: string)
    requires '.' !in k && Get(v, k).None?
    ensures NestedValue(v, k) == ""
  {
  }

  lemma NamesOnlyFields(first: string, last: string)
    ensures var a := NamesOnlyApplicant(first, last);
            NestedValue(a, "First_Name") == first && NestedValue(a, "Last_Name") == last &&
            NestedValue(a, "MobilePhoneNumber") == ""
  {
    var a := NamesOnlyApplicant(first, last);
    TextField(a, "First_Name", first);
    TextField(a, "Last_Name", last);
    AbsentField(a, "MobilePhoneNumber");
  }

  lemma NamesOnlyFullName(first: string, last: string)
    requires Trimmed(first) && Trimmed(last) && first != "" && last != ""
    ensures FullName(NamesOnlyApplicant(first, last)) == first + " " + last
  {
    NamesOnlyFields(first, last);
    TrimJoin(first, last);
  }

  lemma NamesOnlyDetails(first: string, last: string)
    requires Trimmed(first) && Trimmed(last) && first != "" && last != ""
    ensures BasicDetailsOf(NamesOnlyRoot(first, last)) ==
              BasicDetails(first + " " + last, "", "", "")
  {
    var root := NamesOnlyRoot(first, last);
    var bd := BasicDetailsOf(root);
    assert bd.name == first + " " + last && bd.mobileNumber == "" by {
      NamesOnlyFindsApplicant(first, last);
      NamesOnlyFields(first, last);
      NamesOnlyFullName(first, last);
    }
    assert bd.pan == "" by {
      assert FirstHolder(root) == EmptyMap;
      EmptyResolvesEmpty("Income_TAX_PAN");
    }
    assert bd.creditScore == "" by {
      assert Get(root, "SCORE").None?;
      ScoreMissing(root);
    }
  }

  /** A document whose applicant has only a first name `first` and a last
      name `last`, both trimmed and non-empty, so the name is `first` and
      `last` joined by one space and every other field is "". */
  lemma ScenarioNamesOnly(first: string, last: string)
    requires Trimmed(first) && Trimmed(last) && first != "" && last != ""
    ensures ExtractCreditReportData(Map(map["INProfileResponse" := NamesOnlyRoot(first, last)])) ==
              Ok(Report(BasicDetails(first + " " + last, "", "", ""),
                        ReportSummary("", "", "", "", "", "", ""),
                        []))
  {
    var root := NamesOnlyRoot(first, last);
    NamesOnlyDetails(first, last);
    assert CaisSummary(root) == EmptyMap;
    MissingSubtreeBlanksOwnFields(root);
    assert AccountDetails(root) == Ok([]);
  }

  /** An account element whose `Account_Number` is `[n]` and which has no
      address array. */
  predicate NumberedWithoutAddress(account: Node, number: string) {
    Get(account, "Account_Number") == Some(Seq([Str(number)])) &&
    Get(account, "CAIS_Holder_Address_Details").None?
  }

  lemma NumberedAccountRecord(account: Node, number: string)
    requires NumberedWithoutAddress(account, number)
    ensures AccountOf(account).creditCard.accountNumber == number
    ensures AccountOf(account).address == BlankAddress
  {
    TextField(account, "Account_Number", number);
    AddressBlankWithoutEntries(account);
  }

  /** Two account-detail elements with account numbers `n1` and `n2` and no
      address give two records, in that order, with blank addresses. */
  lemma ScenarioTwoAccounts(parsedXml: Node, root: Node, a1: Node, a2: Node, n1: string, n2: string)
    requires Get(parsedXml, "INProfileResponse") == Some(root)
    requires Then(Then(Get(root, "CAIS_Account"), "0"), "CAIS_Account_DETAILS") == Some(Seq([a1, a2]))
    requires NumberedWithoutAddress(a1, n1) && NumberedWithoutAddress(a2, n2)
    ensures var r := ExtractCreditReportData(parsedXml);
            r.Ok? && |r.value.creditAccounts| == 2 &&
            r.value.creditAccounts[0] == AccountOf(a1) && r.value.creditAccounts[1] == AccountOf(a2)
    ensures AccountOf(a1).creditCard.accountNumber == n1 && AccountOf(a1).address == BlankAddress
    ensures AccountOf(a2).creditCard.accountNumber == n2 && AccountOf(a2).address == BlankAddress
  {
    var details := [a1, a2];
    assert AccountDetails(root) == Ok(details);
    AccountsFollowDetails(parsedXml, root, details);
    NumberedAccountRecord(a1, n1);
    NumberedAccountRecord(a2, n2);
  }

  /** A summary whose `Credit_Account` sets only `CreditAccountTotal`, to
      `total`, gives that total and six blank siblings. */
  lemma ScenarioTotalOnly(root: Node, total: string)
    requires CaisSummary(root) == Field("Credit_Account", Field("CreditAccountTotal", Str(total)))
    requires Get(root, "TotalCAPS_Summary").None?
    ensures ReportSummaryOf(root) == ReportSummary(total, "", "", "", "", "", "")
  {
    var node := Field("CreditAccountTotal", Str(total));
    assert CreditAccountNode(root) == node by {
      FieldFirst("Credit_Account", node);
    }
    TextField(node, "CreditAccountTotal", total);
    AbsentField(node, "CreditAccountActive");
    AbsentField(node, "CreditAccountClosed");
    MissingSubtreeBlanksOwnFields(root);
  }
}
