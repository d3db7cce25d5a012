/** The internship offers screen: the fetched offers and the accept and decline buttons. */
module Internships {
  import opened Wrappers
  import Lists
  import Courses
  import Api

  const Pending := "pending"
  const Accepted := "accepted"
  const Declined := "declined"

  const AcceptedMessage := "Internship offer accepted!"
  const AcceptFailedMessage := "Failed to accept offer"
  const DeclinedMessage := "Internship offer declined"
  const DeclineFailedMessage := "Failed to decline offer"

  datatype Internship = Internship(
    id: string,
    courseName: string,
    mentor: Courses.MentorRef,
    duration: int,
    startDate: string,
    status: string)

  /** The accept and decline buttons are shown only for a pending offer. */
  predicate OffersActions(i: Internship) {
    i.status == Pending
  }

  /** The list after an accepted request: every offer with the id takes the new status, nothing else changes. */
  function WithStatus(list: seq<Internship>, id: string, status: string): (r: seq<Internship>)
    ensures |r| == |list|
    ensures forall i :: 0 <= i < |list| && list[i].id == id ==> r[i] == list[i].(status := status)
    ensures forall i :: 0 <= i < |list| && list[i].id != id ==> r[i] == list[i]
  {
    Lists.Patch(list, (x: Internship) => x.id == id, (x: Internship) => x.(status := status))
  }

  /** `POST /internships/<id>/<answer>`. */
  function AnswerCall(id: string, answer: string): Api.RequestConfig {
    Api.Call(Api.Post, "/internships/" + id + "/" + answer)
  }

  /** Once answered, an offer shows no buttons any more. */
  lemma AnsweredOffersHideActions(list: seq<Internship>, id: string)
    ensures forall i :: 0 <= i < |list| && list[i].id == id ==>
      !OffersActions(WithStatus(list, id, Accepted)[i]) && !OffersActions(WithStatus(list, id, Declined)[i])
  {
  }

  /** The handlers themselves do not look at the current status: a declined offer accepted through
      the handler becomes accepted. */
  lemma HandlerIgnoresCurrentStatus(list: seq<Internship>, k: int)
    requires 0 <= k < |list| && list[k].status == Declined
    ensures WithStatus(list, list[k].id, Accepted)[k].status == Accepted
  {
  }

  class InternshipBoard {
    var internships: seq<Internship>

    constructor ()
      ensures internships == []
    {
      internships := [];
    }

    /** The fetch effect: a failed fetch leaves the list empty as it started. */
    method Load(fetch: Option<seq<Internship>>)
      modifies this`internships
      ensures fetch.Some? ==> internships == fetch.value
      ensures fetch.None? ==> internships == old(internships)
    {
      if fetch.Some? {
        internships := fetch.value;
      }
    }

    /** `handleAccept`: the post goes through the client; the status changes only after the server accepts,
        and a refusal shows the client's toast before the screen's own. */
    method Accept<T>(
      id: string, client: Api.ApiClient, server: Api.RequestConfig -> Result<Api.Response<T>, Api.HttpError>)
      modifies this`internships, client.window
      ensures var outcome := server(Api.WithAuth(AnswerCall(id, "accept"), old(client.window.GetItem(Api.AuthTokenKey))));
              (outcome.Success? ==>
                 internships == WithStatus(old(internships), id, Accepted)
                 && client.window.toasts == old(client.window.toasts) + [AcceptedMessage]
                 && client.window.storage == old(client.window.storage)
                 && client.window.location == old(client.window.location))
              && (outcome.Failure? ==>
                 internships == old(internships)
                 && client.window.toasts
                    == old(client.window.toasts) + [Api.ErrorReaction(outcome.error).message, AcceptFailedMessage]
                 && Api.SessionAfter(client.window, outcome.error))
    {
      var sent, r := client.Request(AnswerCall(id, "accept"), server);
      if r.Success? {
        internships := WithStatus(internships, id, Accepted);
        client.window.Toast(AcceptedMessage);
      } else {
        client.window.Toast(AcceptFailedMessage);
      }
    }

    /** `handleDecline`: the same flow with the other status. */
    method Decline<T>(
      id: string, client: Api.ApiClient, server: Api.RequestConfig -> Result<Api.Response<T>, Api.HttpError>)
      modifies this`internships, client.window
      ensures var outcome := server(Api.WithAuth(AnswerCall(id, "decline"), old(client.window.GetItem(Api.AuthTokenKey))));
              (outcome.Success? ==>
                 internships == WithStatus(old(internships), id, Declined)
                 && client.window.toasts == old(client.window.toasts) + [DeclinedMessage]
                 && client.window.storage == old(client.window.storage)
                 && client.window.location == old(client.window.location))
              && (outcome.Failure? ==>
                 internships == old(internships)
                 && client.window.toasts
                    == old(client.window.toasts) + [Api.ErrorReaction(outcome.error).message, DeclineFailedMessage]
                 && Api.SessionAfter(client.window, outcome.error))
    {
      var sent, r := client.Request(AnswerCall(id, "decline"), server);
      if r.Success? {
        internships := WithStatus(internships, id, Declined);
        client.window.Toast(DeclinedMessage);
      } else {
        client.window.Toast(DeclineFailedMessage);
      }
    }
  }
}
