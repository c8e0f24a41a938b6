/** homework.py and tg_bot/homework.py side by side: their validation and
    formatting accept the same payloads and records and produce the same
    list and the same sentence; only the error texts for missing keys and
    for a `homeworks` that is not a list differ. */
module Copies {
  import opened Wrappers
  import opened PyValues
  import opened Exceptions
  import opened Practicum
  import Homework
  import TgHomework

  lemma CheckResponseCopiesAgree(response: Json)
    ensures Homework.CheckResponse(response).Success? <==> TgHomework.CheckResponse(response).Success?
    ensures Homework.CheckResponse(response).Success? ==>
      Homework.CheckResponse(response).value == TgHomework.CheckResponse(response).value
    ensures !response.JObject? ==> Homework.CheckResponse(response) == TgHomework.CheckResponse(response)
  {
  }

  lemma ParseStatusCopiesAgree(homework: Json)
    ensures Homework.ParseStatus(homework).Success? <==> TgHomework.ParseStatus(homework).Success?
    ensures Homework.ParseStatus(homework).Success? ==>
      Homework.ParseStatus(homework).value == TgHomework.ParseStatus(homework).value
    ensures Has(homework, "homework_name") && Has(homework, "status") ==>
      Homework.ParseStatus(homework) == TgHomework.ParseStatus(homework)
  {
  }
}
