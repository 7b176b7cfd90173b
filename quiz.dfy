/** The name quiz: a random Pokémon among the first 151 is shown by number,
    the player types its Japanese name, may reveal its types as a hint, and
    checks the answer. The page state is the five fields the component keeps;
    each handler changes them as `QuizPage` below does, and the `After…`
    functions give the state each handler leaves, so that properties of
    several steps can be stated as lemmas. */
module Quiz {
  import opened Species
  import TypeNames
  import Draw

  /** How many Pokémon the quiz draws from. */
  const QuizRange: nat := 151

  datatype GameStatus = Playing | Correct | Incorrect

  /** The round being played. */
  datatype QuizData = QuizData(id: int, jaName: string, imageUrl: string, types: seq<string>)

  /** What the quiz reads from `/pokemon/{id}`: its type slugs in order and
      `sprites.front_default`. */
  datatype PokemonDetail = PokemonDetail(typeSlugs: seq<string>, frontDefault: string)

  /** The five fields of the component: quizData, loading, inputAnswer,
      gameStatus and showHint. */
  datatype QuizState = QuizState(
    quizData: Option<QuizData>, loading: bool, inputAnswer: string,
    gameStatus: GameStatus, showHint: bool)

  /** The values `useState` starts from. */
  const InitialState: QuizState := QuizState(None, false, "", Playing, false)

  // ---------------------------------------------------------------------
  // Building a round
  // ---------------------------------------------------------------------

  /** The answer of a round: the first Japanese name of the species record,
      or "不明" when it has none. */
  function QuizJaName(names: seq<NameEntry>): (r: string)
    ensures (exists i :: IsFirstJapanese(names, i) && r == names[i].name)
         || (NoJapanese(names) && r == Unknown)
  {
    JapaneseOr(names, Unknown)
  }

  /** The record `setQuizData` receives for the drawn number. */
  function MakeQuiz(id: int, pokemon: PokemonDetail, names: seq<NameEntry>): (q: QuizData)
    ensures q.id == id && q.imageUrl == pokemon.frontDefault
    ensures q.jaName == QuizJaName(names)
    ensures |q.types| == |pokemon.typeSlugs|
    ensures forall i :: 0 <= i < |q.types| ==> q.types[i] == TypeNames.TranslateType(pokemon.typeSlugs[i])
  {
    QuizData(id, QuizJaName(names), pokemon.frontDefault, TypeNames.TranslateTypes(pokemon.typeSlugs))
  }

  /** The answer check: exact equality, with no trimming and no case folding. */
  function Verdict(answer: string, correctName: string): (s: GameStatus)
    ensures s != Playing
    ensures s == Correct <==> answer == correctName
  {
    if answer == correctName then Correct else Incorrect
  }

  lemma PikachuAnswers()
    ensures Verdict("ピカチュウ", "ピカチュウ") == Correct
    ensures Verdict("pikachu", "ピカチュウ") == Incorrect
    ensures Verdict("ピカチュウ ", "ピカチュウ") == Incorrect
    ensures Verdict("", "ピカチュウ") == Incorrect
  {
  }

  // ---------------------------------------------------------------------
  // The handlers, as functions of the state
  // ---------------------------------------------------------------------

  /** fetchNewQuiz up to its first `await`: loading, a fresh status, an
      empty answer and a hidden hint; the previous round stays until the
      new one arrives. */
  function AfterBegin(s: QuizState): (t: QuizState)
    ensures t.loading && t.gameStatus == Playing && t.inputAnswer == "" && !t.showHint
    ensures t.quizData == s.quizData
  {
    s.(loading := true, gameStatus := Playing, inputAnswer := "", showHint := false)
  }

  /** fetchNewQuiz after both responses arrived: the new round is stored,
      loading ends, and the status, answer and hint are left as they are. */
  function AfterLoad(s: QuizState, q: QuizData): (t: QuizState)
    ensures t.quizData == Some(q) && !t.loading
    ensures t.(quizData := s.quizData, loading := s.loading) == s
  {
    s.(quizData := Some(q), loading := false)
  }

  /** The text field's `onChange`: only the answer text changes. */
  function AfterInput(s: QuizState, text: string): (t: QuizState)
    ensures t.inputAnswer == text
    ensures t.(inputAnswer := s.inputAnswer) == s
  {
    s.(inputAnswer := text)
  }

  /** The hint button, `setShowHint(true)`: the hint is shown afterwards and
      nothing else changes. */
  function AfterReveal(s: QuizState): (t: QuizState)
    ensures t.showHint
    ensures t.(showHint := s.showHint) == s
  {
    s.(showHint := true)
  }

  /** checkAnswer: with no round loaded nothing changes; otherwise the status
      becomes "correct" exactly when the typed text equals the round's name
      and "incorrect" otherwise, and nothing but the status changes, so the
      same round can be retried. */
  function AfterCheck(s: QuizState): (t: QuizState)
    ensures s.quizData.None? ==> t == s
    ensures s.quizData.Some? ==>
      && (t.gameStatus == Correct <==> s.inputAnswer == s.quizData.value.jaName)
      && (t.gameStatus == Incorrect <==> s.inputAnswer != s.quizData.value.jaName)
    ensures t.(gameStatus := s.gameStatus) == s
  {
    match s.quizData
    case None => s
    case Some(q) => s.(gameStatus := Verdict(s.inputAnswer, q.jaName))
  }

  // ---------------------------------------------------------------------
  // Properties of the handlers
  // ---------------------------------------------------------------------

  /** A new round starts from a clean slate whatever the previous round
      left: once loaded, the state depends only on the new round. */
  lemma NewRoundResets(s: QuizState, q: QuizData)
    ensures AfterLoad(AfterBegin(s), q) == QuizState(Some(q), false, "", Playing, false)
  {
  }

  /** The hint can only be switched on: revealing it twice is revealing it
      once. */
  lemma RevealIdempotent(s: QuizState)
    ensures AfterReveal(AfterReveal(s)) == AfterReveal(s)
    ensures AfterReveal(s).showHint
  {
  }

  /** Once shown, the hint stays shown through typing, checking and the
      arrival of round data; only the start of a new round hides it. */
  lemma HintOnlyHiddenByNewRound(s: QuizState, text: string, q: QuizData)
    requires s.showHint
    ensures AfterInput(s, text).showHint && AfterCheck(s).showHint && AfterLoad(s, q).showHint
    ensures !AfterBegin(s).showHint
  {
  }

  /** A wrong answer can be retried on the same round: the hint and the
      round are kept, and typing the right name then checking wins. */
  lemma RetryAfterIncorrect(s: QuizState)
    requires s.quizData.Some? && AfterCheck(s).gameStatus == Incorrect
    ensures var t := AfterCheck(AfterInput(AfterCheck(s), s.quizData.value.jaName));
            t.gameStatus == Correct && t.quizData == s.quizData && t.showHint == s.showHint
  {
  }

  // ---------------------------------------------------------------------
  // The component
  // ---------------------------------------------------------------------

  class QuizPage {
    var quizData: Option<QuizData>
    var loading: bool
    var inputAnswer: string
    var gameStatus: GameStatus
    var showHint: bool

    function State(): QuizState
      reads this
    {
      QuizState(quizData, loading, inputAnswer, gameStatus, showHint)
    }

    constructor ()
      ensures State() == InitialState
    {
      quizData, loading, inputAnswer, gameStatus, showHint := None, false, "", Playing, false;
    }

    /** fetchNewQuiz before anything is fetched: the reset, then the draw
        of a number in [1, 151] from the random value `r`. */
    method BeginRound(r: real) returns (id: int)
      requires 0.0 <= r < 1.0
      modifies this
      ensures State() == AfterBegin(old(State()))
      ensures id == Draw.RandomId(r, QuizRange) && 1 <= id <= QuizRange
    {
      loading := true;
      gameStatus := Playing;
      inputAnswer := "";
      showHint := false;
      id := Draw.RandomId(r, QuizRange);
    }

    /** fetchNewQuiz once the Pokémon and its species record arrived. */
    method LoadRound(id: int, pokemon: PokemonDetail, names: seq<NameEntry>)
      modifies this
      ensures State() == AfterLoad(old(State()), MakeQuiz(id, pokemon, names))
    {
      quizData := Some(MakeQuiz(id, pokemon, names));
      loading := false;
    }

    /** The whole of fetchNewQuiz, with the two requests as functions of the
        drawn number. */
    method FetchNewQuiz(r: real, fetchPokemon: int -> PokemonDetail, fetchNames: int -> seq<NameEntry>)
      requires 0.0 <= r < 1.0
      modifies this
      ensures var id := Draw.RandomId(r, QuizRange);
              1 <= id <= QuizRange &&
              State() == AfterLoad(AfterBegin(old(State())), MakeQuiz(id, fetchPokemon(id), fetchNames(id)))
    {
      var id := BeginRound(r);
      LoadRound(id, fetchPokemon(id), fetchNames(id));
    }

    method TypeAnswer(text: string)
      modifies this
      ensures State() == AfterInput(old(State()), text)
    {
      inputAnswer := text;
    }

    method RevealHint()
      modifies this
      ensures State() == AfterReveal(old(State()))
    {
      showHint := true;
    }

    method CheckAnswer()
      modifies this
      ensures State() == AfterCheck(old(State()))
    {
      if quizData.None? {
        return;
      }
      if inputAnswer == quizData.value.jaName {
        gameStatus := Correct;
      } else {
        gameStatus := Incorrect;
      }
    }
  }
}
