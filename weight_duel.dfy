/** The weight duel: two random Pokémon among the first 1025 are shown side
    by side and the player clicks the one they think is heavier. The first
    click decides the round; later clicks do nothing. */
module WeightDuel {
  import opened Species
  import Draw

  /** How many Pokémon the duel draws from. */
  const DuelRange: nat := 1025

  const CorrectMessage: string := "⭕️ 正解！こっちの方が重い！"
  const WrongMessage: string := "❌ 残念... 軽かった..."

  /** A contender as the duel holds it: the name shown, the weight as the
      API gives it (tenths of a kilogram) and the sprite address. */
  datatype Pokemon = Pokemon(name: string, weight: int, image: string)

  /** What the duel reads from `/pokemon/{id}`. */
  datatype PokemonData = PokemonData(name: string, weight: int, frontDefault: string, speciesUrl: string)

  datatype Side = A | B

  // ---------------------------------------------------------------------
  // Comparison and highlight
  // ---------------------------------------------------------------------

  /** The message checkAnswer sets for a click on `selected`: the clicked
      one wins when it is at least as heavy, so a tie goes to the click. */
  function Outcome(selected: Pokemon, other: Pokemon): (msg: string)
    ensures msg == CorrectMessage || msg == WrongMessage
    ensures msg == CorrectMessage <==> selected.weight >= other.weight
  {
    if selected.weight >= other.weight then CorrectMessage else WrongMessage
  }

  /** Of the two possible clicks, exactly one is right when the weights
      differ, and both are right when they are equal. */
  lemma OneClickWins(a: Pokemon, b: Pokemon)
    ensures a.weight != b.weight ==> (Outcome(a, b) == CorrectMessage <==> Outcome(b, a) != CorrectMessage)
    ensures a.weight == b.weight ==> Outcome(a, b) == CorrectMessage && Outcome(b, a) == CorrectMessage
  {
  }

  /** The background of one card: highlighted once answered, if this side is
      at least as heavy as the other. */
  predicate Highlight(isAnswered: bool, self: Pokemon, other: Pokemon): (h: bool)
    ensures h <==> isAnswered && Outcome(self, other) == CorrectMessage
  {
    isAnswered && self.weight >= other.weight
  }

  /** Before the answer no card is highlighted; after it, the heavier card
      is, and both are on a tie. */
  lemma HighlightRule(isAnswered: bool, a: Pokemon, b: Pokemon)
    ensures !isAnswered ==> !Highlight(isAnswered, a, b) && !Highlight(isAnswered, b, a)
    ensures isAnswered && a.weight == b.weight ==> Highlight(isAnswered, a, b) && Highlight(isAnswered, b, a)
    ensures isAnswered && a.weight != b.weight ==> (Highlight(isAnswered, a, b) <==> !Highlight(isAnswered, b, a))
  {
  }

  /** `weight / 10`, the kilograms shown once the round is answered; the
      stored weight itself stays in tenths. */
  function WeightKg(raw: int): (kg: real)
    ensures kg * 10.0 == raw as real
  {
    raw as real / 10.0
  }

  lemma WeightExamples()
    ensures WeightKg(100) == 10.0 && WeightKg(60) == 6.0
  {
  }

  // ---------------------------------------------------------------------
  // The quiz card pair: WeightQuiz
  // ---------------------------------------------------------------------

  class WeightQuiz {
    const pokeA: Pokemon
    const pokeB: Pokemon
    var result: string
    var isAnswered: bool

    /** The result message is there exactly when the round is answered, and
        it is one of the two messages. */
    predicate Valid()
      reads this
    {
      (isAnswered <==> result != "") &&
      (result == "" || result == CorrectMessage || result == WrongMessage)
    }

    constructor (a: Pokemon, b: Pokemon)
      ensures pokeA == a && pokeB == b
      ensures result == "" && !isAnswered && Valid()
    {
      pokeA, pokeB := a, b;
      result, isAnswered := "", false;
    }

    /** Whether the card of `side` is highlighted: once answered, exactly
        when a click on that card is the right one. */
    predicate Highlighted(side: Side): (h: bool)
      reads this
      ensures side == A ==> (h <==> isAnswered && Outcome(pokeA, pokeB) == CorrectMessage)
      ensures side == B ==> (h <==> isAnswered && Outcome(pokeB, pokeA) == CorrectMessage)
    {
      match side
      case A => Highlight(isAnswered, pokeA, pokeB)
      case B => Highlight(isAnswered, pokeB, pokeA)
    }

    /** checkAnswer: answers once; any later call leaves the round as it was. */
    method CheckAnswer(selected: Pokemon, other: Pokemon)
      requires Valid()
      modifies this
      ensures Valid() && isAnswered
      ensures old(isAnswered) ==> result == old(result)
      ensures !old(isAnswered) ==> result == Outcome(selected, other)
    {
      if isAnswered {
        return;
      }
      isAnswered := true;
      if selected.weight >= other.weight {
        result := CorrectMessage;
      } else {
        result := WrongMessage;
      }
    }

    /** A click on card A. A first click is reported correct exactly when
        card A ends up highlighted. */
    method ClickA()
      requires Valid()
      modifies this
      ensures Valid() && isAnswered
      ensures old(isAnswered) ==> result == old(result)
      ensures !old(isAnswered) ==> (result == CorrectMessage <==> Highlighted(A))
    {
      CheckAnswer(pokeA, pokeB);
    }

    /** A click on card B, symmetrically. */
    method ClickB()
      requires Valid()
      modifies this
      ensures Valid() && isAnswered
      ensures old(isAnswered) ==> result == old(result)
      ensures !old(isAnswered) ==> (result == CorrectMessage <==> Highlighted(B))
    {
      CheckAnswer(pokeB, pokeA);
    }
  }

  // ---------------------------------------------------------------------
  // Fetching the contenders: fetchRandomPokemon and init
  // ---------------------------------------------------------------------

  /** The name the duel shows for a Pokémon whose English name is `enName`:
      the first Japanese name when the species request gives a `names` list
      that has one, the English name otherwise. The response status is not
      looked at, and a failed request or parse keeps the English name. */
  function DuelName(enName: string, species: SpeciesFetch): (name: string)
    ensures species.Threw? || species.body.Unparseable? ==> name == enName
    ensures species.Responded? && species.body.Names? ==>
      var names := species.body.names;
      (exists i :: IsFirstJapanese(names, i) && name == names[i].name) || (NoJapanese(names) && name == enName)
  {
    match species
    case Responded(_, Names(names)) => JapaneseOr(names, enName)
    case _ => enName
  }

  /** `p` is a contender fetchRandomPokemon can build from the random value
      `r`: weight and sprite of the drawn Pokémon, and its name as above. */
  ghost predicate FetchedFrom(p: Pokemon, r: real, fetchPokemon: int -> PokemonData, fetchSpecies: string -> SpeciesFetch)
    requires 0.0 <= r < 1.0
  {
    var data := fetchPokemon(Draw.RandomId(r, DuelRange));
    p.weight == data.weight && p.image == data.frontDefault &&
    p.name == DuelName(data.name, fetchSpecies(data.speciesUrl))
  }

  /** fetchRandomPokemon, with the two requests as functions of the number
      and of the species address. */
  method FetchRandomPokemon(r: real, fetchPokemon: int -> PokemonData, fetchSpecies: string -> SpeciesFetch)
    returns (p: Pokemon)
    requires 0.0 <= r < 1.0
    ensures FetchedFrom(p, r, fetchPokemon, fetchSpecies)
  {
    var id := Draw.RandomId(r, DuelRange);
    var data := fetchPokemon(id);
    var jaName := data.name;
    match fetchSpecies(data.speciesUrl) {
      case Responded(_, Names(names)) =>
        FindJapaneseIsFirst(names);
        var found := FindJapanese(names);
        if found.Some? {
          jaName := found.value;
        }
      case _ =>
    }
    p := Pokemon(jaName, data.weight, data.frontDefault);
  }

  /** The page around the quiz: it holds the two contenders once fetched. */
  class WeightPage {
    var pokeA: Option<Pokemon>
    var pokeB: Option<Pokemon>

    constructor ()
      ensures pokeA.None? && pokeB.None?
    {
      pokeA, pokeB := None, None;
    }

    /** init: two independent draws, fetched one after the other; the same
        Pokémon may be drawn twice. */
    method Init(r1: real, r2: real, fetchPokemon: int -> PokemonData, fetchSpecies: string -> SpeciesFetch)
      requires 0.0 <= r1 < 1.0 && 0.0 <= r2 < 1.0
      modifies this
      ensures pokeA.Some? && FetchedFrom(pokeA.value, r1, fetchPokemon, fetchSpecies)
      ensures pokeB.Some? && FetchedFrom(pokeB.value, r2, fetchPokemon, fetchSpecies)
    {
      var a := FetchRandomPokemon(r1, fetchPokemon, fetchSpecies);
      var b := FetchRandomPokemon(r2, fetchPokemon, fetchSpecies);
      pokeA := Some(a);
      pokeB := Some(b);
    }
  }
}
