/** The fixed test-data catalogue of the sandbox (cards, banks, users,
    loans) and the two rules that consult it: which dropdown a form field
    gets, judged from its name, and which fixture replaces a placeholder
    value in a sample request. */
module TestData {
  import opened Wrappers
  import opened Json
  import opened Text

  datatype Card = Card(id: int, name: string, bank: string)
  datatype Bank = Bank(id: int, name: string, kind: string)
  datatype User = User(name: string, mobile: string)
  datatype Loan = Loan(id: int, kind: string, amount: string)

  const CardFixtures: seq<Card> := [
    Card(1, "SBI Cashback Credit Card", "SBI"),
    Card(2, "HDFC Regalia Credit Card", "HDFC"),
    Card(3, "ICICI Platinum Chip Credit Card", "ICICI")
  ]

  const BankFixtures: seq<Bank> := [
    Bank(1, "SBI", "Public"),
    Bank(2, "HDFC Bank", "Private"),
    Bank(3, "ICICI Bank", "Private")
  ]

  const UserFixtures: seq<User> := [
    User("John Doe", "9876543210"),
    User("Jane Smith", "9876543211"),
    User("Bob Johnson", "9876543212")
  ]

  const LoanFixtures: seq<Loan> := [
    Loan(1, "Personal Loan", "500000"),
    Loan(2, "Home Loan", "5000000"),
    Loan(3, "Business Loan", "1000000")
  ]

  /** The four fixture lists a field can be classified into. */
  datatype Catalogue = CardList | BankList | UserList | LoanList

  /** One entry of a dropdown: the value it stores and the text it shows. */
  datatype SelectOption = SelectOption(value: Json, caption: string)

  function CardOption(c: Card): SelectOption {
    SelectOption(JNum(c.id), c.name + " (" + c.bank + ")")
  }

  function BankOption(b: Bank): SelectOption {
    SelectOption(JNum(b.id), b.name + " (" + b.kind + ")")
  }

  function UserOption(u: User): SelectOption {
    SelectOption(JStr(u.mobile), u.name + " (" + u.mobile + ")")
  }

  function LoanOption(l: Loan): SelectOption {
    SelectOption(JNum(l.id), l.kind + " - " + l.amount)
  }

  /** Every fixture of a catalogue, in catalogue order, as a dropdown entry. */
  function CatalogueOptions(c: Catalogue): (r: seq<SelectOption>)
    ensures |r| == 3
  {
    match c
    case CardList => seq(|CardFixtures|, i requires 0 <= i < |CardFixtures| => CardOption(CardFixtures[i]))
    case BankList => seq(|BankFixtures|, i requires 0 <= i < |BankFixtures| => BankOption(BankFixtures[i]))
    case UserList => seq(|UserFixtures|, i requires 0 <= i < |UserFixtures| => UserOption(UserFixtures[i]))
    case LoanList => seq(|LoanFixtures|, i requires 0 <= i < |LoanFixtures| => LoanOption(LoanFixtures[i]))
  }

  /** The canonical value of a catalogue: the id of its first card, bank or
      loan, or the mobile number of its first user. It is the value of the
      first entry the catalogue's dropdown offers. */
  function FirstFixtureValue(c: Catalogue): (v: Json)
    ensures v == CatalogueOptions(c)[0].value
  {
    match c
    case CardList => JNum(CardFixtures[0].id)
    case BankList => JNum(BankFixtures[0].id)
    case UserList => JStr(UserFixtures[0].mobile)
    case LoanList => JNum(LoanFixtures[0].id)
  }

  /** The substrings the classification looks for. */
  const Keywords: seq<string> := ["card", "bank", "user", "mobile", "loan"]

  /** Case-sensitive classification of a text, in the source's order:
      card, then bank, then user or mobile, then loan. */
  function Classify(s: string): (c: Option<Catalogue>)
    ensures c.None? <==> forall k :: k in Keywords ==> !Contains(s, k)
  {
    assert Keywords == ["card", "bank", "user", "mobile", "loan"];
    assert "card" in Keywords && "bank" in Keywords && "user" in Keywords && "mobile" in Keywords && "loan" in Keywords;
    if Contains(s, "card") then Some(CardList)
    else if Contains(s, "bank") then Some(BankList)
    else if Contains(s, "user") || Contains(s, "mobile") then Some(UserList)
    else if Contains(s, "loan") then Some(LoanList)
    else None
  }

  /** One row of the ordered rule table: any of `keywords` selects `catalogue`. */
  datatype Rule = Rule(keywords: seq<string>, catalogue: Catalogue)

  /** The classification written as a rule table, evaluated top to bottom. */
  const RuleTable: seq<Rule> := [
    Rule(["card"], CardList),
    Rule(["bank"], BankList),
    Rule(["user", "mobile"], UserList),
    Rule(["loan"], LoanList)
  ]

  predicate Fires(rule: Rule, s: string) {
    exists k :: k in rule.keywords && Contains(s, k)
  }

  /** No rule before position `i` fires on `s`. */
  predicate NoneFiresBefore(rules: seq<Rule>, s: string, i: int)
    requires i <= |rules|
  {
    forall j :: 0 <= j < i ==> !Fires(rules[j], s)
  }

  /** The catalogue of the first rule that fires. */
  function FirstMatch(rules: seq<Rule>, s: string): Option<Catalogue> {
    if rules == [] then None
    else if Fires(rules[0], s) then Some(rules[0].catalogue)
    else FirstMatch(rules[1..], s)
  }

  /** `FirstMatch` picks `c` exactly when some rule for `c` fires and no
      earlier rule does; it picks nothing exactly when no rule fires. */
  lemma {:induction false} FirstMatchIsFirst(rules: seq<Rule>, s: string, c: Catalogue)
    ensures FirstMatch(rules, s) == Some(c) <==>
      exists i :: 0 <= i < |rules| && rules[i].catalogue == c && Fires(rules[i], s) && NoneFiresBefore(rules, s, i)
    ensures FirstMatch(rules, s).None? <==> NoneFiresBefore(rules, s, |rules|)
  {
    if rules != [] {
      FirstMatchIsFirst(rules[1..], s, c);
      if Fires(rules[0], s) {
        if rules[0].catalogue == c {
          assert NoneFiresBefore(rules, s, 0);
        }
      } else {
        if FirstMatch(rules, s) == Some(c) {
          var i :| 0 <= i < |rules| - 1 && rules[1..][i].catalogue == c && Fires(rules[1..][i], s)
            && NoneFiresBefore(rules[1..], s, i);
          assert NoneFiresBefore(rules, s, i + 1);
          assert rules[i + 1] == rules[1..][i];
        }
        if exists i :: 0 <= i < |rules| && rules[i].catalogue == c && Fires(rules[i], s) && NoneFiresBefore(rules, s, i) {
          var i :| 0 <= i < |rules| && rules[i].catalogue == c && Fires(rules[i], s) && NoneFiresBefore(rules, s, i);
          assert i != 0;
          assert rules[1..][i - 1] == rules[i];
          assert NoneFiresBefore(rules[1..], s, i - 1);
        }
        if NoneFiresBefore(rules[1..], s, |rules| - 1) {
          forall j | 0 <= j < |rules|
            ensures !Fires(rules[j], s)
          {
            if j > 0 { assert rules[j] == rules[1..][j - 1]; }
          }
        }
      }
    }
  }

  /** The source's if-chain is the rule table read top to bottom. */
  lemma ClassifyFollowsRuleTable(s: string)
    ensures Classify(s) == FirstMatch(RuleTable, s)
  {
    assert Fires(RuleTable[0], s) <==> Contains(s, "card") by {
      if Contains(s, "card") { assert "card" in RuleTable[0].keywords; }
    }
    assert Fires(RuleTable[1], s) <==> Contains(s, "bank") by {
      if Contains(s, "bank") { assert "bank" in RuleTable[1].keywords; }
    }
    assert Fires(RuleTable[2], s) <==> Contains(s, "user") || Contains(s, "mobile") by {
      if Contains(s, "user") { assert "user" in RuleTable[2].keywords; }
      if Contains(s, "mobile") { assert "mobile" in RuleTable[2].keywords; }
    }
    assert Fires(RuleTable[3], s) <==> Contains(s, "loan") by {
      if Contains(s, "loan") { assert "loan" in RuleTable[3].keywords; }
    }
    var rest1, rest2, rest3 := RuleTable[1..], RuleTable[2..], RuleTable[3..];
    assert rest1[0] == RuleTable[1] && rest1[1..] == rest2;
    assert rest2[0] == RuleTable[2] && rest2[1..] == rest3;
    assert rest3[0] == RuleTable[3] && rest3[1..] == [];
    assert FirstMatch(rest3, s) == if Fires(RuleTable[3], s) then Some(LoanList) else None;
    assert FirstMatch(rest2, s) == if Fires(RuleTable[2], s) then Some(UserList) else FirstMatch(rest3, s);
    assert FirstMatch(rest1, s) == if Fires(RuleTable[1], s) then Some(BankList) else FirstMatch(rest2, s);
  }

  /** `getTestDataOptions`: the dropdown entries offered for a form field,
      judged case-insensitively from its name. No entries means the form
      shows a free-text input instead of a dropdown. */
  function FieldOptions(field: string): (r: seq<SelectOption>)
    ensures r == [] <==> forall k :: k in Keywords ==> !Contains(ToLower(field), k)
    ensures r != [] ==>
              FirstMatch(RuleTable, ToLower(field)).Some? &&
              r == CatalogueOptions(FirstMatch(RuleTable, ToLower(field)).value)
  {
    ClassifyFollowsRuleTable(ToLower(field));
    match Classify(ToLower(field))
    case None => []
    case Some(c) => CatalogueOptions(c)
  }

  /** The dropdown depends on the field name only up to letter case. */
  lemma FieldOptionsIgnoreCase(field: string)
    ensures FieldOptions(field) == FieldOptions(ToLower(field))
  {
    ToLowerIdempotent(field);
  }

  /** A field name mentioning "card" in any letter case gets the card
      dropdown, whatever else it mentions. */
  lemma CardNamesGetCardOptions(field: string)
    requires Contains(ToLower(field), "card")
    ensures FieldOptions(field) == CatalogueOptions(CardList)
  {
    FirstMatchIsFirst(RuleTable, ToLower(field), CardList);
    assert "card" in RuleTable[0].keywords;
    assert NoneFiresBefore(RuleTable, ToLower(field), 0);
  }

  /** A sample value the draft does not keep: a string mentioning one of the keywords. */
  predicate IsPlaceholder(v: Json) {
    v.JStr? && Classify(v.s).Some?
  }

  /** No canonical fixture value is itself a placeholder. */
  lemma FixtureValuesAreNotPlaceholders(c: Catalogue)
    ensures !IsPlaceholder(FirstFixtureValue(c))
  {
    if c == UserList {
      var m := "9876543210";
      forall k | k in Keywords
        ensures !Contains(m, k)
      {
        MissingFirstCharNotContained(m, k);
      }
    }
  }

  /** The value a sample-request entry gets in a fresh draft: a placeholder
      becomes the canonical value of its catalogue, anything else stays. */
  function DraftValue(v: Json): (r: Json)
    ensures !IsPlaceholder(r)
    ensures r == v <==> !IsPlaceholder(v)
    ensures IsPlaceholder(v) ==>
              FirstMatch(RuleTable, v.s).Some? &&
              r == CatalogueOptions(FirstMatch(RuleTable, v.s).value)[0].value
  {
    match v
    case JStr(s) =>
      (match Classify(s)
       case None => v
       case Some(c) =>
         FixtureValuesAreNotPlaceholders(c);
         ClassifyFollowsRuleTable(s);
         FirstFixtureValue(c))
    case _ => v
  }

  /** The replacement table for sample strings, in priority order. */
  lemma PlaceholderReplacements(s: string)
    ensures Contains(s, "card") ==> DraftValue(JStr(s)) == JNum(1)
    ensures !Contains(s, "card") && Contains(s, "bank") ==> DraftValue(JStr(s)) == JNum(1)
    ensures !Contains(s, "card") && !Contains(s, "bank") && (Contains(s, "user") || Contains(s, "mobile")) ==>
              DraftValue(JStr(s)) == JStr("9876543210")
    ensures (!Contains(s, "card") && !Contains(s, "bank") && !Contains(s, "user") && !Contains(s, "mobile")
             && Contains(s, "loan")) ==> DraftValue(JStr(s)) == JNum(1)
    ensures (forall k :: k in Keywords ==> !Contains(s, k)) ==> DraftValue(JStr(s)) == JStr(s)
  {
  }

  /** The field-name rule ignores case but the placeholder rule does not:
      "CARD" gets the card dropdown, yet as a sample value it is kept. */
  lemma CaseSensitivityContrast()
    ensures FieldOptions("CARD") == CatalogueOptions(CardList)
    ensures DraftValue(JStr("CARD")) == JStr("CARD")
  {
    CardNamesGetCardOptions("CARD");
    forall k | k in Keywords
      ensures !Contains("CARD", k)
    {
      MissingFirstCharNotContained("CARD", k);
    }
  }
}
