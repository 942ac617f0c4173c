/** Figures of the calculator for the literal keys the recommendation
    engines pass to it: diets, shopping habits and heating types. */
module CalculatorFigures {
  import opened Strings
  import opened CarbonCalc

  /** A key spelled the way the calculator normalises it is its own diet
      and shopping key. */
  lemma NormalKey(k: string)
    requires forall i :: 0 <= i < |k| ==> IsLowerAscii(k[i]) || k[i] == '_'
    ensures DietKey(k) == k && ShoppingKey(k) == k
  {
    assert Lower(k) == k;
    assert ReplaceChar(k, ' ', '_') == k;
    assert ReplaceChar(k, '-', '_') == k;
  }

  /** The calculator's yearly figure for a heavy meat diet, for the key `k` names. */
  lemma HeavyMeatKg(k: string)
    requires k == "heavy_meat"
    ensures DietKg(k) == 3300.0
  {
    NormalKey(k);
  }

  /** The calculator's yearly figure for a moderate meat diet, for the key `k` names. */
  lemma ModerateMeatKg(k: string)
    requires k == "moderate_meat"
    ensures DietKg(k) == 2500.0
  {
    NormalKey(k);
  }

  /** The calculator's yearly figure for a light meat diet, for the key `k` names. */
  lemma LightMeatKg(k: string)
    requires k == "light_meat"
    ensures DietKg(k) == 1900.0
  {
    NormalKey(k);
  }

  /** The calculator's yearly figure for very high shopping, for the key `k` names. */
  lemma VeryHighShoppingKg(k: string)
    requires k == "very_high"
    ensures ShoppingKg(k) == 3000.0
  {
    NormalKey(k);
  }

  /** The calculator's yearly figure for high shopping, for the key `k` names. */
  lemma HighShoppingKg(k: string)
    requires k == "high"
    ensures ShoppingKg(k) == 2000.0
  {
    NormalKey(k);
  }

  /** The calculator's yearly figure for moderate shopping, for the key `k` names. */
  lemma ModerateShoppingKg(k: string)
    requires k == "moderate"
    ensures ShoppingKg(k) == 1000.0
  {
    NormalKey(k);
  }

  /** Moving from a heavy meat diet to light meat saves 1400 kg a year in
      the calculator's figures, from moderate meat 600 kg. */
  lemma MeatDietDrop(diet: string, lightMeat: string)
    requires (diet == "heavy_meat" || diet == "moderate_meat") && lightMeat == "light_meat"
    ensures DietKg(diet) - DietKg(lightMeat) == if diet == "heavy_meat" then 1400.0 else 600.0
  {
    LightMeatKg(lightMeat);
    if diet == "heavy_meat" {
      HeavyMeatKg(diet);
    } else {
      ModerateMeatKg(diet);
    }
  }

  /** Moving from very high shopping to moderate saves 2000 kg a year in
      the calculator's figures, from high shopping 1000 kg. */
  lemma FrequentShoppingDrop(frequency: string, moderate: string)
    requires (frequency == "very_high" || frequency == "high") && moderate == "moderate"
    ensures ShoppingKg(frequency) - ShoppingKg(moderate) == if frequency == "very_high" then 2000.0 else 1000.0
  {
    ModerateShoppingKg(moderate);
    if frequency == "very_high" {
      VeryHighShoppingKg(frequency);
    } else {
      HighShoppingKg(frequency);
    }
  }

  /** "heat pump" is priced as electric heating. */
  lemma HeatPumpKind(k: string)
    requires k == "heat pump"
    ensures HeatingKindOf(Lower(k)) == ElectricHeating
  {
    assert Lower(k) == k;
  }

  /** "heat_pump" is not a heating type the calculator knows. */
  lemma UnderscoredHeatPumpKind(k: string)
    requires k == "heat_pump"
    ensures HeatingKindOf(Lower(k)) == OtherHeating
  {
    assert Lower(k) == k;
  }
}
