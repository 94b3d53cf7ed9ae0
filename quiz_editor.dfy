/**
 * The admin editor for quiz questions: a form with the question, exactly four options, a
 * select of the correct option (0 to 3), an explanation and an optional image. Saving
 * replaces the edited question (keeping its id) or appends a new one whose id is the clock
 * reading; deleting asks for confirmation first.
 */
module QuizEditor {
  import opened Wrappers
  import opened Types
  import opened Seqs
  import opened Collections
  import opened InitialData
  import opened DataProvider

  /** The values the correct-answer select offers. */
  type OptionIndex = i: int | 0 <= i < 4

  /** The dialog's fields, already read from the form. */
  datatype QuizForm = QuizForm(
    question: string,
    option0: string,
    option1: string,
    option2: string,
    option3: string,
    correctAnswer: OptionIndex,
    explanation: string,
    image: string)

  /** The question `handleSave` builds: four options in form order, an empty image field meaning none. */
  function BuildQuestion(f: QuizForm, id: int): (q: QuizQuestion)
    ensures q.id == id && q.question == f.question && q.explanation == f.explanation
    ensures q.options == [f.option0, f.option1, f.option2, f.option3] && q.correctAnswer == f.correctAnswer
    ensures WellFormedQuestion(q)
    ensures q.image.None? <==> f.image == ""
    ensures q.image.Some? ==> q.image.value == f.image
  {
    QuizQuestion(id, f.question, [f.option0, f.option1, f.option2, f.option3], f.correctAnswer, f.explanation, NonEmpty(f.image))
  }

  /** The edited question's id, or `Date.now()` for a new one. */
  function QuestionIdFor(editing: Option<QuizQuestion>, now: nat): int {
    match editing
    case Some(q) => q.id
    case None => now
  }

  /**
   * The select's initial value, `editingItem?.correctAnswer || 0`. A stored answer outside
   * the four offered values matches no option, and the select then shows its first option.
   */
  function DefaultCorrectAnswer(editing: Option<QuizQuestion>): (a: OptionIndex)
    ensures editing.Some? && 0 <= editing.value.correctAnswer < 4 ==> a == editing.value.correctAnswer
    ensures editing.None? ==> a == 0
  {
    if editing.Some? && 0 <= editing.value.correctAnswer < 4 then editing.value.correctAnswer else 0
  }

  /** `handleSave` on the quiz collection. */
  function SaveQuestion(quiz: seq<QuizQuestion>, editing: Option<QuizQuestion>, f: QuizForm, now: nat): seq<QuizQuestion> {
    var q := BuildQuestion(f, QuestionIdFor(editing, now));
    if editing.Some? then Update(quiz, QuestionId, editing.value.id, q) else Add(quiz, q)
  }

  ghost predicate AllWellFormed(quiz: seq<QuizQuestion>) {
    forall i :: 0 <= i < |quiz| ==> WellFormedQuestion(quiz[i])
  }

  /** Saving keeps the edited id: a question replaced in place, or one more question with the clock as id. */
  lemma SaveKeepsId(quiz: seq<QuizQuestion>, editing: Option<QuizQuestion>, f: QuizForm, now: nat)
    ensures editing.Some? ==> Map(SaveQuestion(quiz, editing, f, now), QuestionId) == Map(quiz, QuestionId)
    ensures editing.None? ==>
      |SaveQuestion(quiz, editing, f, now)| == |quiz| + 1 && SaveQuestion(quiz, editing, f, now)[|quiz|].id == now
  {
    if editing.Some? {
      UpdateKeepsIds(quiz, QuestionId, editing.value.id, BuildQuestion(f, editing.value.id));
    }
  }

  /** The editor never produces a malformed question: four options and a valid answer stay true of the whole quiz. */
  lemma {:induction false} SaveKeepsWellFormed(quiz: seq<QuizQuestion>, editing: Option<QuizQuestion>, f: QuizForm, now: nat)
    requires AllWellFormed(quiz)
    ensures AllWellFormed(SaveQuestion(quiz, editing, f, now))
  {
    var q := BuildQuestion(f, QuestionIdFor(editing, now));
    var t := SaveQuestion(quiz, editing, f, now);
    if editing.Some? {
      forall i | 0 <= i < |t| ensures WellFormedQuestion(t[i]) {
        UpdateAt(quiz, QuestionId, editing.value.id, q, i);
      }
    } else {
      forall i | 0 <= i < |t| ensures WellFormedQuestion(t[i]) {
        if i < |quiz| {
          assert t[i] == quiz[i];
        }
      }
    }
  }

  /** Deleting leaves only questions that were there, so the quiz stays well formed. */
  lemma DeleteKeepsWellFormed(quiz: seq<QuizQuestion>, id: int)
    requires AllWellFormed(quiz)
    ensures AllWellFormed(Delete(quiz, QuestionId, id))
  {
    var t := Delete(quiz, QuestionId, id);
    forall i | 0 <= i < |t| ensures WellFormedQuestion(t[i]) {
      DeleteMembership(quiz, QuestionId, id, t[i]);
    }
  }

  /** The built-in quiz is well formed, so a quiz edited only here always is. */
  lemma SeedWellFormed()
    ensures AllWellFormed(InitialQuiz)
  {
    QuizSeed();
  }

  class QuizEditor {
    var isDialogOpen: bool
    var editingItem: Option<QuizQuestion>
    const store: DataStore

    constructor (store: DataStore)
      ensures !isDialogOpen && editingItem == None && this.store == store
    {
      isDialogOpen := false;
      editingItem := None;
      this.store := store;
    }

    method HandleEdit(item: QuizQuestion)
      modifies this
      ensures editingItem == Some(item) && isDialogOpen
    {
      editingItem := Some(item);
      isDialogOpen := true;
    }

    method HandleAdd()
      modifies this
      ensures editingItem == None && isDialogOpen
    {
      editingItem := None;
      isDialogOpen := true;
    }

    /** `handleDelete(item)`: deletes only when `confirmed`. */
    method HandleDelete(item: QuizQuestion, confirmed: bool, refused: set<string>)
      modifies store, store.storage
      ensures store.Contents() ==
        if confirmed then old(store.Contents()).(quiz := Delete(old(store.quiz), QuestionId, item.id)) else old(store.Contents())
      ensures store.initialized == old(store.initialized)
      ensures store.storage.entries ==
        if confirmed then store.Watched(old(store.storage.entries), QuizData, refused) else old(store.storage.entries)
    {
      if confirmed {
        store.DeleteQuizQuestion(item.id, refused);
      }
    }

    /** `handleSave`: builds the question, updates or adds it, and closes the dialog. */
    method HandleSave(f: QuizForm, now: nat, refused: set<string>)
      modifies this, store, store.storage
      ensures store.Contents() == old(store.Contents()).(quiz := SaveQuestion(old(store.quiz), editingItem, f, now))
      ensures store.initialized == old(store.initialized)
      ensures store.storage.entries == store.Watched(old(store.storage.entries), QuizData, refused)
      ensures !isDialogOpen && editingItem == old(editingItem)
    {
      var q := BuildQuestion(f, QuestionIdFor(editingItem, now));
      if editingItem.Some? {
        store.UpdateQuizQuestion(editingItem.value.id, q, refused);
      } else {
        store.AddQuizQuestion(q, refused);
      }
      isDialogOpen := false;
    }
  }
}
