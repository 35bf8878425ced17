/** `send_email_background` (app/email_utils.py): a message is queued on the
    request's background tasks; delivery happens later and is not modelled. */
module EmailUtils {

  datatype Email = Email(to: string, subject: string, html: string)

  /** The request's background task list, holding only e-mail sends. */
  class BackgroundTasks {
    var queue: seq<Email>

    constructor ()
      ensures queue == []
    {
      queue := [];
    }
  }

  method SendEmailBackground(tasks: BackgroundTasks, to: string, subject: string, html: string)
    modifies tasks
    ensures tasks.queue == old(tasks.queue) + [Email(to, subject, html)]
  {
    tasks.queue := tasks.queue + [Email(to, subject, html)];
  }
}
