/**
 * The built-in content: what every collection holds before anything is loaded and after a
 * reset. Only the quiz has entries — two questions, each with four options and no image.
 */
module InitialData {
  import opened Wrappers
  import opened Types

  const InitialHeroes: seq<Hero> := []

  const InitialWarHeroes: seq<WarHero> := []

  const InitialPlaces: seq<Place> := []

  const InitialQuiz: seq<QuizQuestion> := [
    QuizQuestion(
      1,
      "У якім годзе Францыск Скарына надрукаваў сваю першую кнігу?",
      ["1517", "1410", "1569", "1588"],
      0,
      "6 жніўня 1517 года Францыск Скарына выдаў у Празе 'Псалтыр' — першую друкаваную кнігу на старабеларускай мове.",
      None),
    QuizQuestion(
      2,
      "Што такое 'Слуцкі пояс'?",
      ["Від старажытнай зброі",
       "Элемент мужчынскага касцюма шляхты",
       "Назва ракі ў Слуцку",
       "Грашовая адзінка ВКЛ"],
      1,
      "Слуцкі пояс — элемент мужчынскага касцюма Вялікага княства Літоўскага, сімвал шляхецкай годнасці і багацця.",
      None)
  ]

  const InitialEvents: seq<HistoricalEvent> := []

  /** What the quiz editor always produces: four options and a correct answer among them. */
  predicate WellFormedQuestion(q: QuizQuestion) {
    |q.options| == 4 && 0 <= q.correctAnswer < |q.options|
  }

  /** The hero, war-hero, place and event seeds are empty. */
  lemma EmptySeeds()
    ensures |InitialHeroes| == 0 && |InitialWarHeroes| == 0
    ensures |InitialPlaces| == 0 && |InitialEvents| == 0
  {
  }

  /** Two questions with ids 1 and 2, both well formed, neither with an image. */
  lemma QuizSeed()
    ensures |InitialQuiz| == 2
    ensures InitialQuiz[0].id == 1 && InitialQuiz[1].id == 2
    ensures forall i :: 0 <= i < |InitialQuiz| ==> WellFormedQuestion(InitialQuiz[i])
    ensures forall i :: 0 <= i < |InitialQuiz| ==> InitialQuiz[i].image == None
  {
  }
}
