/**
 * The record shapes of the site's content: historical figures, war heroes, places on the
 * map, quiz questions and timeline events. String ids for the first three, integer ids for
 * the last two; the image is required on both hero kinds and optional (absent, not empty)
 * on questions and events. Numbers (coordinates, years, indices) are integers in the model.
 */
module Types {
  import opened Wrappers

  /** `Hero.period`: only these two values. */
  datatype Period = Early | Modern

  /** The four kinds of place marked on the map. */
  datatype PlaceType = Castle | Memorial | Religious | Historical

  datatype Hero = Hero(
    id: string,
    name: string,
    years: string,
    title: string,
    description: string,
    image: string,
    period: Period)

  /** The fields of `Hero` without `period`. */
  datatype WarHero = WarHero(
    id: string,
    name: string,
    years: string,
    title: string,
    description: string,
    image: string)

  datatype Place = Place(
    id: string,
    name: string,
    description: string,
    location: string,
    url: string,
    imageUrl: string,
    x: int,
    y: int,
    placeType: PlaceType)

  /** No bound on the number of options and no range on `correctAnswer` at this level. */
  datatype QuizQuestion = QuizQuestion(
    id: int,
    question: string,
    options: seq<string>,
    correctAnswer: int,
    explanation: string,
    image: Option<string>)

  datatype HistoricalEvent = HistoricalEvent(
    id: int,
    title: string,
    year: int,
    description: string,
    image: Option<string>)

  function HeroId(h: Hero): string { h.id }
  function WarHeroId(w: WarHero): string { w.id }
  function PlaceId(p: Place): string { p.id }
  function QuestionId(q: QuizQuestion): int { q.id }
  function EventId(e: HistoricalEvent): int { e.id }
}
