/**
 * The transaction type enum: its backing values, display label, colour and icon,
 * and the case-insensitive parser `fromString`.
 */
module TransactionTypes {
  import opened Wrappers
  import opened Text

  datatype TransactionType = Income | Expense {

    /** The enum's backing string. */
    function Value(): string {
      match this
      case Income => "income"
      case Expense => "expense"
    }

    /** The display label: the backing value with its first letter capitalised. */
    function Label(): (l: string)
      ensures ToLower(l) == Value() && l != Value()
      ensures |l| == |Value()| && l[1..] == Value()[1..]
    {
      var l := match this case Income => "Income" case Expense => "Expense";
      assert ToLower(l)[0] == Lower(l[0]);
      l
    }

    /** Income is shown in green and an expense in red. */
    function Color(): (c: string)
      ensures c == "green" <==> this == Income
      ensures c == "red" <==> this == Expense
    {
      match this
      case Income => "green"
      case Expense => "red"
    }

    /** Income points up and an expense down. */
    function Icon(): (i: string)
      ensures i == "arrow-up" <==> this == Income
      ensures i == "arrow-down" <==> this == Expense
    {
      match this
      case Income => "arrow-up"
      case Expense => "arrow-down"
    }
  }

  /**
   * Lower-cases `s` and maps it to a case; any other string is an
   * InvalidArgumentException carrying the original text.
   */
  function FromString(s: string): (r: Result<TransactionType, string>)
    ensures r.Success? ==> r.value.Value() == ToLower(s)
    ensures r.Failure? ==> r.error == "Invalid transaction type: " + s
  {
    match ToLower(s)
    case "income" => Success(Income)
    case "expense" => Success(Expense)
    case _ => Failure("Invalid transaction type: " + s)
  }

  /** Parsing succeeds exactly on the strings whose lower case is a backing value. */
  lemma FromStringAccepts(s: string)
    ensures FromString(s).Success? <==> exists t: TransactionType :: t.Value() == ToLower(s)
  {
    if ToLower(s) == "income" {
      assert Income.Value() == ToLower(s);
    } else if ToLower(s) == "expense" {
      assert Expense.Value() == ToLower(s);
    }
  }

  /** Every case parses back from its backing value. */
  lemma FromStringValue(t: TransactionType)
    ensures FromString(t.Value()) == Success(t)
  {
    ToLowerOfLower(t.Value());
  }

  /** Every case parses back from its display label. */
  lemma FromStringLabel(t: TransactionType)
    ensures FromString(t.Label()) == Success(t)
  {
    var l := ToLower(t.Label());
    assert l[0] == Lower(t.Label()[0]);
    assert l == t.Value();
  }

  /** Parsing ignores ASCII case. */
  lemma FromStringIgnoresCase(s: string)
    ensures FromString(ToLower(s)).Success? == FromString(s).Success?
    ensures FromString(s).Success? ==> FromString(ToLower(s)).value == FromString(s).value
  {
    ToLowerIdempotent(s);
  }

  /** Upper-case and capitalised spellings parse. */
  lemma FromStringUpperCase()
    ensures FromString("INCOME") == Success(Income)
  {
    var l := ToLower("INCOME");
    assert l[0] == 'i' && l[1] == 'n' && l[2] == 'c' && l[3] == 'o' && l[4] == 'm' && l[5] == 'e';
    assert l == "income";
  }

  lemma FromStringCapitalised()
    ensures FromString("Expense") == Success(Expense)
  {
    FromStringLabel(Expense);
  }

  /** A string that is no case's backing value, in any case, is rejected. */
  lemma FromStringRejects()
    ensures FromString("transfer") == Failure("Invalid transaction type: transfer")
  {
    ToLowerOfLower("transfer");
    assert ToLower("transfer") != "income" && ToLower("transfer") != "expense";
    assert "Invalid transaction type: " + "transfer" == "Invalid transaction type: transfer";
  }

  /** Labels, colours and icons tell the two cases apart. */
  lemma PresentationInjective(t: TransactionType, u: TransactionType)
    ensures t.Label() == u.Label() ==> t == u
    ensures t.Color() == u.Color() ==> t == u
    ensures t.Icon() == u.Icon() ==> t == u
  {
  }
}
