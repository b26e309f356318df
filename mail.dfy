/** The mail transport, reduced to the messages handed to it. */
module Mail {

  /** One call of `sendEmail({to, subject, body})`; the HTML body is not modelled.
      A workflow's sent mail is an outbox, a `seq<Email>` that only grows at its end. */
  datatype Email = Email(to: string, subject: string)
}
