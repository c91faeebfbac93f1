/** The Builder demo: a nutrition plan assembled food by food, whose Build step refuses a
    plan with too few calories for the client's weight. */
module Builder {
  import opened Wrappers

  /** The four foods of the demo. */
  datatype Food = Curd | MaxlerGainer | Bread | Pasta
  {
    function Callories(): (c: nat)
      ensures this == Curd ==> c == 10
      ensures this == MaxlerGainer ==> c == 400
      ensures this == Bread ==> c == 100
      ensures this == Pasta ==> c == 200
    {
      match this
      case Curd => 10
      case MaxlerGainer => 400
      case Bread => 100
      case Pasta => 200
    }

    /** The food's display name, as each food class sets it; no two foods share one. */
    function Name(): (r: string)
      ensures |r| > 0
      ensures this == Curd ==> r == "Творог"
      ensures this == MaxlerGainer ==> r == "Гейнер от Maxler"
      ensures this == Bread ==> r == "Хлеб"
      ensures this == Pasta ==> r == "Макароны Шебекинские"
    {
      match this
      case Curd => "Творог"
      case MaxlerGainer => "Гейнер от Maxler"
      case Bread => "Хлеб"
      case Pasta => "Макароны Шебекинские"
    }

    /** The name of the food's class. */
    function TypeName(): (r: string)
      ensures this == Curd ==> r == "Curd"
      ensures this == MaxlerGainer ==> r == "MaxlerGainer"
      ensures this == Bread ==> r == "Bread"
      ensures this == Pasta ==> r == "Pasta"
    {
      match this
      case Curd => "Curd"
      case MaxlerGainer => "MaxlerGainer"
      case Bread => "Bread"
      case Pasta => "Pasta"
    }

    /** Different foods print different names and class names, so each food line
        identifies its food. */
    lemma NamesIdentify(other: Food)
      requires other != this
      ensures other.Name() != Name() && other.TypeName() != TypeName()
    {
    }

    /** The food interfaces each class implements. */
    predicate IsProtein() { this in {Curd, MaxlerGainer} }
    predicate IsCarbohydrates() { this in {MaxlerGainer, Bread, Pasta} }
    predicate IsFats() { this == MaxlerGainer }
  }

  type ProteinFood = f: Food | f.IsProtein() witness Curd
  type CarbohydratesFood = f: Food | f.IsCarbohydrates() witness Bread
  type FatsFood = f: Food | f.IsFats() witness MaxlerGainer

  const CalloriesPer1Kg := 45
  const NotEnoughCalories := "Need more calories to gain weight. Add more food!"

  /** The sum of the foods' calories. */
  function Total(foods: seq<Food>): (r: nat)
    ensures r >= 10 * |foods|
  {
    if foods == [] then 0 else foods[0].Callories() + Total(foods[1..])
  }

  /** The total of a list with one more food is the old total plus that food's calories. */
  lemma {:induction false} TotalAppend(foods: seq<Food>, f: Food)
    ensures Total(foods + [f]) == Total(foods) + f.Callories()
  {
    if foods != [] {
      assert (foods + [f])[1..] == foods[1..] + [f];
      TotalAppend(foods[1..], f);
    }
  }

  /** The threshold Build checks: at least 45 calories per kilogram of current weight. */
  predicate EnoughCalories(foods: seq<Food>, currentWeight: int)
  {
    Total(foods) >= currentWeight * CalloriesPer1Kg
  }

  // ---------------------------------------------------------------- text

  function Digit(d: nat): (c: char)
    requires d < 10
    ensures '0' <= c <= '9' && c as int - '0' as int == d
  {
    ('0' as int + d) as char
  }

  /** The decimal text of a natural number, without leading zeros. */
  function NatToString(n: nat): (r: string)
    ensures |r| >= 1 && forall i :: 0 <= i < |r| ==> '0' <= r[i] <= '9'
    ensures |r| > 1 ==> r[0] != '0'
  {
    if n < 10 then [Digit(n)] else NatToString(n / 10) + [Digit(n % 10)]
  }

  /** The value of a string of decimal digits. */
  function DigitsValue(s: string): nat
    requires forall i :: 0 <= i < |s| ==> '0' <= s[i] <= '9'
  {
    if s == [] then 0 else DigitsValue(s[..|s| - 1]) * 10 + (s[|s| - 1] as int - '0' as int)
  }

  /** Reading the printed number back gives the number. */
  lemma {:induction false} NatToStringRoundTrip(n: nat)
    ensures DigitsValue(NatToString(n)) == n
  {
    if n >= 10 {
      var s := NatToString(n);
      assert s[..|s| - 1] == NatToString(n / 10);
      NatToStringRoundTrip(n / 10);
    }
  }

  /** One line of the plan's text per food. */
  function FoodLine(f: Food): (r: string)
    ensures f.Name() <= r
    ensures r[|r| - 1] == '\n'
  {
    f.Name() + " : " + f.TypeName() + " - " + NatToString(f.Callories()) + " callories\n"
  }

  /** The food lines as the loop writes them: each food's line appended after the lines of
      the foods before it. */
  function FoodLines(foods: seq<Food>): string
  {
    if foods == [] then "" else FoodLines(foods[..|foods| - 1]) + FoodLine(foods[|foods| - 1])
  }

  // Proof step for FoodLinesConcat: string concatenation regrouped.
  lemma Regroup(x: string, y: string, z: string)
    ensures x + (y + z) == (x + y) + z
  {
  }

  // Proof step for FoodLinesConcat: both sides unfolded at the last food of `b`.
  lemma FoodLinesLast(a: seq<Food>, b: seq<Food>)
    requires b != []
    ensures FoodLines(a + b) == FoodLines(a + b[..|b| - 1]) + FoodLine(b[|b| - 1])
    ensures FoodLines(b) == FoodLines(b[..|b| - 1]) + FoodLine(b[|b| - 1])
  {
    assert (a + b)[..|a + b| - 1] == a + b[..|b| - 1];
  }

  /** The food lines of two lists one after the other are the first list's lines followed
      by the second's, so every food's line sits where the food sits in the list. */
  lemma {:induction false} FoodLinesConcat(a: seq<Food>, b: seq<Food>)
    ensures FoodLines(a + b) == FoodLines(a) + FoodLines(b)
  {
    if b == [] {
      assert a + b == a;
    } else {
      var init, last := b[..|b| - 1], FoodLine(b[|b| - 1]);
      FoodLinesLast(a, b);
      FoodLinesConcat(a, init);
      Regroup(FoodLines(a), FoodLines(init), last);
    }
  }

  function TotalLine(total: nat): (r: string)
    ensures "Total callories: " <= r && r[|r| - 1] == '\n'
  {
    "Total callories: " + NatToString(total) + "\n"
  }

  /** The plan's text: the total line, then each food's line in list order. */
  function PlanText(foods: seq<Food>): (r: string)
    ensures TotalLine(Total(foods)) <= r
    ensures foods == [] ==> r == TotalLine(0)
  {
    TotalLine(Total(foods)) + FoodLines(foods)
  }

  /** The total line of a list with one more food prints the old total plus its calories. */
  lemma TotalLineAppend(foods: seq<Food>, f: Food)
    ensures TotalLine(Total(foods + [f])) == TotalLine(Total(foods) + f.Callories())
  {
    TotalAppend(foods, f);
  }

  // Proof step for PlanTextAppend: the new food's line follows the old food lines.
  lemma PlanTextLinesAppend(foods: seq<Food>, f: Food)
    ensures PlanText(foods + [f]) == TotalLine(Total(foods + [f])) + (FoodLines(foods) + FoodLine(f))
  {
    FoodLinesConcat(foods, [f]);
    assert [f][..0] == [];
  }

  /** Adding a food to the plan updates the total line and appends the food's line. */
  lemma PlanTextAppend(foods: seq<Food>, f: Food)
    ensures PlanText(foods + [f]) ==
      TotalLine(Total(foods) + f.Callories()) + (FoodLines(foods) + FoodLine(f))
  {
    TotalLineAppend(foods, f);
    PlanTextLinesAppend(foods, f);
  }

  // ---------------------------------------------------------------- classes

  class NutritionPlan {
    var Foods: seq<Food>

    constructor ()
      ensures Foods == []
    {
      Foods := [];
    }

    /** The plan's text: the total line, then one line per food in list order. */
    function ToString(): (r: string)
      reads this
      ensures TotalLine(Total(Foods)) <= r
    {
      PlanText(Foods)
    }
  }

  class WeightGainNutritionPlanBuilder {
    const plan: NutritionPlan
    const currentWeight: int

    constructor (currentWeight: int)
      ensures fresh(plan) && plan.Foods == [] && this.currentWeight == currentWeight
    {
      plan := new NutritionPlan();
      this.currentWeight := currentWeight;
    }

    method AddFats(fats: FatsFood) returns (self: WeightGainNutritionPlanBuilder)
      modifies plan
      ensures self == this && plan.Foods == old(plan.Foods) + [fats]
    {
      plan.Foods := plan.Foods + [fats];
      self := this;
    }

    method AddProtein(protein: ProteinFood) returns (self: WeightGainNutritionPlanBuilder)
      modifies plan
      ensures self == this && plan.Foods == old(plan.Foods) + [protein]
    {
      plan.Foods := plan.Foods + [protein];
      self := this;
    }

    method AddCarbohydrates(carbohydrates: CarbohydratesFood)
      returns (self: WeightGainNutritionPlanBuilder)
      modifies plan
      ensures self == this && plan.Foods == old(plan.Foods) + [carbohydrates]
    {
      plan.Foods := plan.Foods + [carbohydrates];
      self := this;
    }

    /** The builder's own plan, or the exception's message when the foods' calories fall
        short of 45 per kilogram of current weight. */
    method Build() returns (r: Result<NutritionPlan, string>)
      ensures r.Success? <==> EnoughCalories(plan.Foods, currentWeight)
      ensures r.Success? ==> r.value == plan
      ensures r.Failure? ==> r.error == NotEnoughCalories
    {
      if Total(plan.Foods) < currentWeight * CalloriesPer1Kg {
        return Failure(NotEnoughCalories);
      }
      return Success(plan);
    }
  }

  /** The demo run: a builder for 10 kg gets a gainer, bread, curd and pasta, 710 calories
      against a threshold of 450, so Build succeeds with the foods in that order. */
  method Demo() returns (r: Result<NutritionPlan, string>)
    ensures r.Success?
    ensures r.value.Foods == [MaxlerGainer, Bread, Curd, Pasta]
    ensures Total(r.value.Foods) == 710
  {
    var builder := new WeightGainNutritionPlanBuilder(10);
    var b := builder.AddProtein(MaxlerGainer);
    b := b.AddCarbohydrates(Bread);
    b := b.AddProtein(Curd);
    b := b.AddCarbohydrates(Pasta);
    assert Total([Pasta]) == 200;
    assert Total([Curd, Pasta]) == 210;
    assert Total([Bread, Curd, Pasta]) == 310;
    assert Total([MaxlerGainer, Bread, Curd, Pasta]) == 710;
    assert builder.plan.Foods == [MaxlerGainer, Bread, Curd, Pasta];
    r := b.Build();
  }
}
