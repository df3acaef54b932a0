/** The question manager of `src/pages/Dashboard/Questions/Questions.jsx`: a
    list of questions with add, edit and delete, and one text input shared by
    adding and editing. */
module Questions {
  import opened Js
  import opened HtmlForms
  import opened Http

  const LoadFailedMessage := "Failed to load questions. Please try again later."
  const SaveFailedMessage := "Failed to save question. Please try again."
  const DeleteFailedMessage := "Failed to delete question. Please try again."

  datatype Question = Question(id: int, text: string)

  /** The list installed when the fetch fails. */
  const SampleQuestions := [
    Question(1, "What problem did our product help you solve?"),
    Question(2, "How has our service improved your business?"),
    Question(3, "What specific feature do you find most valuable?"),
    Question(4, "Would you recommend our product to others? Why?")
  ]

  // ---------------------------------------------------------------------
  // The list updates
  // ---------------------------------------------------------------------

  /** The `map` after an edit: the question with that id gets the new text,
      every other entry stays where and what it was. */
  function ReplaceText(qs: seq<Question>, id: int, text: string): (r: seq<Question>)
    ensures |r| == |qs|
    ensures forall i :: 0 <= i < |r| && qs[i].id == id ==> r[i] == Question(id, text)
    ensures forall i :: 0 <= i < |r| && qs[i].id != id ==> r[i] == qs[i]
  {
    seq(|qs|, i requires 0 <= i < |qs| => if qs[i].id == id then qs[i].(text := text) else qs[i])
  }

  /** The `filter` after a delete. */
  function RemoveId(qs: seq<Question>, id: int): (r: seq<Question>)
    ensures |r| <= |qs|
    ensures (forall i :: 0 <= i < |qs| ==> qs[i].id != id) ==> r == qs
  {
    if qs == [] then []
    else if qs[0].id == id then RemoveId(qs[1..], id)
    else [qs[0]] + RemoveId(qs[1..], id)
  }

  /** A delete removes exactly the entries with that id: no entry with that
      id is left, and every other entry is kept as many times as it was. */
  lemma {:induction false} RemoveIdRemovesExactly(qs: seq<Question>, id: int)
    ensures forall q: Question :: q in RemoveId(qs, id) <==> q in qs && q.id != id
    ensures forall q: Question :: q.id != id ==> multiset(RemoveId(qs, id))[q] == multiset(qs)[q]
  {
    if qs != [] {
      RemoveIdRemovesExactly(qs[1..], id);
      assert qs == [qs[0]] + qs[1..];
    }
  }

  /** The filter keeps the order of what it keeps. */
  lemma {:induction false} RemoveIdConcat(a: seq<Question>, b: seq<Question>, id: int)
    ensures RemoveId(a + b, id) == RemoveId(a, id) + RemoveId(b, id)
  {
    if a != [] {
      var ab := a + b;
      assert ab[0] == a[0] && ab[1..] == a[1..] + b;
      RemoveIdConcat(a[1..], b, id);
      if a[0].id == id {
        assert RemoveId(ab, id) == RemoveId(a[1..] + b, id);
        assert RemoveId(a, id) == RemoveId(a[1..], id);
      } else {
        assert RemoveId(ab, id) == [a[0]] + RemoveId(a[1..] + b, id);
        assert RemoveId(a, id) == [a[0]] + RemoveId(a[1..], id);
      }
    } else {
      assert a + b == b;
    }
  }

  /** Deleting an id the list does not hold leaves the list as it was. */
  lemma {:induction false} RemoveIdAbsent(qs: seq<Question>, id: int)
    requires forall i :: 0 <= i < |qs| ==> qs[i].id != id
    ensures RemoveId(qs, id) == qs
  {
    if qs != [] {
      RemoveIdAbsent(qs[1..], id);
    }
  }

  /** The ids of a list, in order. */
  function Ids(qs: seq<Question>): (r: seq<int>)
    ensures |r| == |qs| && forall i :: 0 <= i < |qs| ==> r[i] == qs[i].id
  {
    seq(|qs|, i requires 0 <= i < |qs| => qs[i].id)
  }

  predicate UniqueIds(qs: seq<Question>) {
    forall i, j :: 0 <= i < j < |qs| ==> qs[i].id != qs[j].id
  }

  /** An edit renames nothing: the ids, in order, are those of before. */
  lemma ReplaceTextKeepsIds(qs: seq<Question>, id: int, text: string)
    ensures Ids(ReplaceText(qs, id, text)) == Ids(qs)
  {
  }

  /** A delete keeps ids unique. */
  lemma {:induction false} RemoveIdKeepsUniqueIds(qs: seq<Question>, id: int)
    requires UniqueIds(qs)
    ensures UniqueIds(RemoveId(qs, id))
  {
    if qs != [] {
      RemoveIdKeepsUniqueIds(qs[1..], id);
      if qs[0].id != id {
        var rest := RemoveId(qs[1..], id);
        assert RemoveId(qs, id) == [qs[0]] + rest;
        RemoveIdRemovesExactly(qs[1..], id);
        forall q | q in rest ensures q.id != qs[0].id {
          assert q in qs[1..];
          var k :| 0 <= k < |qs[1..]| && qs[1..][k] == q;
          assert qs[k + 1] == q;
        }
      }
    }
  }

  /** Deleting a question just added, under an id new to the list, gives
      back the list as it was before the add. */
  lemma DeleteUndoesAdd(qs: seq<Question>, q: Question)
    requires forall i :: 0 <= i < |qs| ==> qs[i].id != q.id
    ensures RemoveId(qs + [q], q.id) == qs
  {
    RemoveIdConcat(qs, [q], q.id);
    RemoveIdAbsent(qs, q.id);
    assert RemoveId([q], q.id) == [];
  }

  /** The two calls a submit can make. */
  datatype SaveCall = UpdateQuestion(id: int, text: string) | CreateQuestion(text: string)

  class QuestionsPage {
    var questions: seq<Question>
    var newQuestion: string
    var editingQuestion: Option<Question>
    var loading: bool
    var error: Option<string>

    /** The page as mounted: its fetch is in flight. */
    constructor ()
      ensures questions == [] && newQuestion == "" && editingQuestion == None && loading && error == None
    {
      questions := [];
      newQuestion := "";
      editingQuestion := None;
      loading := true;
      error := None;
    }

    /** The text input. */
    method SetNewQuestion(text: string)
      modifies this
      ensures newQuestion == text
      ensures questions == old(questions) && editingQuestion == old(editingQuestion)
      ensures loading == old(loading) && error == old(error)
    {
      newQuestion := text;
    }

    /** `fetchQuestions` started. */
    method FetchQuestions()
      modifies this
      ensures loading
      ensures questions == old(questions) && newQuestion == old(newQuestion)
      ensures editingQuestion == old(editingQuestion) && error == old(error)
    {
      loading := true;
    }

    /** The fetch's answer: the server's list, or on failure the four sample
        questions; the error ends up cleared and loading ends either way. */
    method FetchQuestionsResponse(reply: Reply<seq<Question>>)
      requires loading
      modifies this
      ensures !loading && error == None
      ensures reply.Ok? ==> questions == reply.data
      ensures reply.Failed? ==> questions == SampleQuestions
      ensures newQuestion == old(newQuestion) && editingQuestion == old(editingQuestion)
    {
      match reply {
        case Ok(data) =>
          questions := data;
          error := None;
        case Failed(_) =>
          error := Some(LoadFailedMessage);
          questions := SampleQuestions;
          error := None;
      }
      loading := false;
    }

    /** The question form's `submit` event, from its button or from Enter.
        The textarea is `required`, so an empty text is stopped by the
        browser: no call, no change, exactly as the handler's own blank test
        would have done. Any other text reaches `handleSubmit`. */
    method SubmitQuestionForm(reply: Reply<Question>) returns (sent: Option<SaveCall>)
      modifies this
      ensures ValueMissing(old(newQuestion)) ==> sent == None && unchanged(this)
      ensures Trim(old(newQuestion)) == "" ==>
        sent == None && questions == old(questions) && newQuestion == old(newQuestion) &&
        editingQuestion == old(editingQuestion) && error == old(error)
      ensures Trim(old(newQuestion)) != "" && old(editingQuestion).Some? ==>
        sent == Some(UpdateQuestion(old(editingQuestion).value.id, old(newQuestion)))
      ensures Trim(old(newQuestion)) != "" && old(editingQuestion).None? ==>
        sent == Some(CreateQuestion(old(newQuestion)))
      ensures Trim(old(newQuestion)) != "" && reply.Ok? && old(editingQuestion).Some? ==>
        questions == ReplaceText(old(questions), old(editingQuestion).value.id, old(newQuestion)) &&
        editingQuestion == None
      ensures Trim(old(newQuestion)) != "" && reply.Ok? && old(editingQuestion).None? ==>
        questions == old(questions) + [reply.data] && editingQuestion == None
      ensures Trim(old(newQuestion)) != "" && reply.Ok? ==> newQuestion == "" && error == None
      ensures Trim(old(newQuestion)) != "" && reply.Failed? ==>
        questions == old(questions) && newQuestion == old(newQuestion) &&
        editingQuestion == old(editingQuestion) && error == Some(SaveFailedMessage)
      ensures loading == old(loading)
    {
      if ValueMissing(newQuestion) {
        return None;
      }
      sent := HandleSubmit(reply);
    }

    /** `handleSubmit`. A blank text changes nothing and calls nothing. While
        editing, a save rewrites that question's text in place and leaves
        editing mode; otherwise it appends the question the server returns.
        A save clears the input and the error; a failure keeps the list, the
        input and the editing mode and sets the error. `sent` is the call
        made. */
    method HandleSubmit(reply: Reply<Question>) returns (sent: Option<SaveCall>)
      modifies this
      ensures Trim(old(newQuestion)) == "" ==>
        sent == None && questions == old(questions) && newQuestion == old(newQuestion) &&
        editingQuestion == old(editingQuestion) && error == old(error)
      ensures Trim(old(newQuestion)) != "" && old(editingQuestion).Some? ==>
        sent == Some(UpdateQuestion(old(editingQuestion).value.id, old(newQuestion)))
      ensures Trim(old(newQuestion)) != "" && old(editingQuestion).None? ==>
        sent == Some(CreateQuestion(old(newQuestion)))
      ensures Trim(old(newQuestion)) != "" && reply.Ok? && old(editingQuestion).Some? ==>
        questions == ReplaceText(old(questions), old(editingQuestion).value.id, old(newQuestion)) &&
        editingQuestion == None
      ensures Trim(old(newQuestion)) != "" && reply.Ok? && old(editingQuestion).None? ==>
        questions == old(questions) + [reply.data] && editingQuestion == None
      ensures Trim(old(newQuestion)) != "" && reply.Ok? ==> newQuestion == "" && error == None
      ensures Trim(old(newQuestion)) != "" && reply.Failed? ==>
        questions == old(questions) && newQuestion == old(newQuestion) &&
        editingQuestion == old(editingQuestion) && error == Some(SaveFailedMessage)
      ensures loading == old(loading)
    {
      if Trim(newQuestion) == "" {
        return None;
      }
      if editingQuestion.Some? {
        sent := Some(UpdateQuestion(editingQuestion.value.id, newQuestion));
        if reply.Failed? {
          error := Some(SaveFailedMessage);
          return;
        }
        questions := ReplaceText(questions, editingQuestion.value.id, newQuestion);
        editingQuestion := None;
      } else {
        sent := Some(CreateQuestion(newQuestion));
        if reply.Failed? {
          error := Some(SaveFailedMessage);
          return;
        }
        questions := questions + [reply.data];
      }
      newQuestion := "";
      error := None;
    }

    /** `handleEdit`, the edit button of a listed question: editing mode on
        that question, with its text in the input. */
    method HandleEdit(question: Question)
      requires question in questions
      modifies this
      ensures editingQuestion == Some(question) && newQuestion == question.text
      ensures questions == old(questions) && loading == old(loading) && error == old(error)
    {
      editingQuestion := Some(question);
      newQuestion := question.text;
    }

    /** `handleCancelEdit`, the cancel button shown while editing. */
    method HandleCancelEdit()
      requires editingQuestion.Some?
      modifies this
      ensures editingQuestion == None && newQuestion == ""
      ensures questions == old(questions) && loading == old(loading) && error == old(error)
    {
      editingQuestion := None;
      newQuestion := "";
    }

    /** `handleDelete`, the delete button of a listed question. A declined
        confirmation changes nothing and calls nothing; a successful delete
        removes exactly the entries with that id; a failed one sets the
        error. The error is not cleared on success. `sent` is the id whose
        delete was requested. */
    method HandleDelete(questionId: int, confirmed: bool, accepted: bool) returns (sent: Option<int>)
      requires exists i :: 0 <= i < |questions| && questions[i].id == questionId
      modifies this
      ensures !confirmed ==> sent == None && questions == old(questions) && error == old(error)
      ensures confirmed ==> sent == Some(questionId)
      ensures confirmed && accepted ==> questions == RemoveId(old(questions), questionId) && error == old(error)
      ensures confirmed && !accepted ==> questions == old(questions) && error == Some(DeleteFailedMessage)
      ensures newQuestion == old(newQuestion) && editingQuestion == old(editingQuestion) && loading == old(loading)
    {
      if !confirmed {
        return None;
      }
      sent := Some(questionId);
      if accepted {
        questions := RemoveId(questions, questionId);
      } else {
        error := Some(DeleteFailedMessage);
      }
    }
  }
}
