/**
 * The state of the calculator screen: twelve text fields, two checkboxes and the four amounts
 * shown. Every accepted edit and every checkbox change writes its variable and then runs
 * `calculate()`, so the amounts always follow the fields once the screen has started.
 */
module CalculatorScreen {
  import opened DecimalInput
  import opened Pricing

  /** The input fields of the screen, one per `InputField`. */
  datatype Field =
    | BoxLength | BoxWidth | BoxHeight | BoxUnitPrice
    | TopSpongeLength | TopSpongeWidth | TopSpongeHeight | TopSpongeUnitPrice
    | BottomSpongeLength | BottomSpongeWidth | BottomSpongeHeight | BottomSpongeUnitPrice

  /** The inputs with one field's text replaced; nothing else changes. */
  function WithField(q: QuoteInputs, f: Field, value: string): (r: QuoteInputs)
    ensures r.hasTopSponge == q.hasTopSponge && r.hasBottomSponge == q.hasBottomSponge
    ensures AllFiltered(q) && PassesFilter(value) ==> AllFiltered(r)
  {
    match f
    case BoxLength => q.(box := q.box.(length := value))
    case BoxWidth => q.(box := q.box.(width := value))
    case BoxHeight => q.(box := q.box.(height := value))
    case BoxUnitPrice => q.(box := q.box.(unitPrice := value))
    case TopSpongeLength => q.(topSponge := q.topSponge.(length := value))
    case TopSpongeWidth => q.(topSponge := q.topSponge.(width := value))
    case TopSpongeHeight => q.(topSponge := q.topSponge.(height := value))
    case TopSpongeUnitPrice => q.(topSponge := q.topSponge.(unitPrice := value))
    case BottomSpongeLength => q.(bottomSponge := q.bottomSponge.(length := value))
    case BottomSpongeWidth => q.(bottomSponge := q.bottomSponge.(width := value))
    case BottomSpongeHeight => q.(bottomSponge := q.bottomSponge.(height := value))
    case BottomSpongeUnitPrice => q.(bottomSponge := q.bottomSponge.(unitPrice := value))
  }

  class Calculator {
    var boxLength: string
    var boxWidth: string
    var boxHeight: string
    var boxUnitPrice: string

    var hasTopSponge: bool
    var topSpongeLength: string
    var topSpongeWidth: string
    var topSpongeHeight: string
    var topSpongeUnitPrice: string

    var hasBottomSponge: bool
    var bottomSpongeLength: string
    var bottomSpongeWidth: string
    var bottomSpongeHeight: string
    var bottomSpongeUnitPrice: string

    var boxPrice: real
    var topSpongePrice: real
    var bottomSpongePrice: real
    var totalPrice: real

    /** The inputs as a value. */
    function Inputs(): QuoteInputs
      reads this
    {
      QuoteInputs(
        Fields(boxLength, boxWidth, boxHeight, boxUnitPrice),
        hasTopSponge, Fields(topSpongeLength, topSpongeWidth, topSpongeHeight, topSpongeUnitPrice),
        hasBottomSponge, Fields(bottomSpongeLength, bottomSpongeWidth, bottomSpongeHeight, bottomSpongeUnitPrice))
    }

    /** The four amounts on display. */
    function Shown(): Quotation
      reads this
    {
      Quotation(boxPrice, topSpongePrice, bottomSpongePrice, totalPrice)
    }

    /**
     * Every field holds text the filter accepted (the starting values do, and only accepted
     * edits are stored), and the total shown is the sum of the three amounts shown.
     */
    ghost predicate Valid()
      reads this
    {
      AllFiltered(Inputs()) && totalPrice == boxPrice + topSpongePrice + bottomSpongePrice
    }

    /** The amounts shown are the quotation of the current inputs. */
    ghost predicate UpToDate()
      reads this
      requires Valid()
    {
      Shown() == Quote(Inputs())
    }

    /** The `remember { mutableStateOf(...) }` initial values, before the first `calculate()`. */
    constructor ()
      ensures Valid()
      ensures Inputs() == DefaultInputs()
      ensures Shown() == Quotation(0.0, 0.0, 0.0, 0.0)
    {
      boxLength, boxWidth, boxHeight, boxUnitPrice := "500", "400", "300", "300";
      hasTopSponge := false;
      topSpongeLength, topSpongeWidth, topSpongeHeight, topSpongeUnitPrice := "", "", "", "3000";
      hasBottomSponge := false;
      bottomSpongeLength, bottomSpongeWidth, bottomSpongeHeight, bottomSpongeUnitPrice := "", "", "", "3000";
      boxPrice, topSpongePrice, bottomSpongePrice, totalPrice := 0.0, 0.0, 0.0, 0.0;
      new;
      assert Inputs() == DefaultInputs();
    }

    /** `calculate()`: recomputes the four amounts from the fields. */
    method Calculate()
      requires Valid()
      modifies this
      ensures Valid() && UpToDate()
      ensures Inputs() == old(Inputs())
    {
      var inputs := Inputs();
      var box := BoxPrice(inputs.box);
      var top := if hasTopSponge then SpongePrice(inputs.topSponge) else 0.0;
      var bottom := if hasBottomSponge then SpongePrice(inputs.bottomSponge) else 0.0;
      boxPrice, topSpongePrice, bottomSpongePrice, totalPrice := box, top, bottom, box + top + bottom;
      assert Inputs() == inputs;
    }

    /** `LaunchedEffect(Unit) { calculate() }`: the first quotation the screen shows. */
    method Start()
      requires Valid()
      modifies this
      ensures Valid() && UpToDate()
      ensures Inputs() == old(Inputs())
      ensures old(Inputs()) == DefaultInputs() ==> totalPrice == 282.0
    {
      Calculate();
      DefaultQuotation();
    }

    /**
     * One keystroke in an `InputField`: the edit reaches the field's `onValueChange` only when
     * it passes the filter, which stores it and recalculates; a rejected edit changes nothing.
     */
    method Edit(f: Field, newValue: string) returns (accepted: bool)
      requires Valid()
      modifies this
      ensures accepted <==> PassesFilter(newValue)
      ensures accepted ==> Valid() && UpToDate() && Inputs() == WithField(old(Inputs()), f, newValue)
      ensures !accepted ==> unchanged(this)
    {
      accepted := newValue == [] || PassesFilter(newValue);
      if !accepted {
        return;
      }
      Store(f, newValue);
      Calculate();
    }

    /** Writes one field variable: the `boxLength = it` half of an `onValueChange`, reached only by accepted text. */
    method Store(f: Field, value: string)
      requires PassesFilter(value)
      modifies this
      ensures Inputs() == WithField(old(Inputs()), f, value)
      ensures Shown() == old(Shown())
    {
      match f {
        case BoxLength => boxLength := value;
        case BoxWidth => boxWidth := value;
        case BoxHeight => boxHeight := value;
        case BoxUnitPrice => boxUnitPrice := value;
        case TopSpongeLength => topSpongeLength := value;
        case TopSpongeWidth => topSpongeWidth := value;
        case TopSpongeHeight => topSpongeHeight := value;
        case TopSpongeUnitPrice => topSpongeUnitPrice := value;
        case BottomSpongeLength => bottomSpongeLength := value;
        case BottomSpongeWidth => bottomSpongeWidth := value;
        case BottomSpongeHeight => bottomSpongeHeight := value;
        case BottomSpongeUnitPrice => bottomSpongeUnitPrice := value;
      }
    }

    /** The top insert's checkbox: `hasTopSponge = it; calculate()`. */
    method SetTopSponge(checked: bool)
      requires Valid()
      modifies this
      ensures Valid() && UpToDate()
      ensures Inputs() == old(Inputs()).(hasTopSponge := checked)
    {
      hasTopSponge := checked;
      Calculate();
    }

    /** The bottom insert's checkbox: `hasBottomSponge = it; calculate()`. */
    method SetBottomSponge(checked: bool)
      requires Valid()
      modifies this
      ensures Valid() && UpToDate()
      ensures Inputs() == old(Inputs()).(hasBottomSponge := checked)
    {
      hasBottomSponge := checked;
      Calculate();
    }
  }
}
