/** The GitHub webhook payloads the handler decodes, as records. Decoding
    itself is not modelled: a request carries what the decoder produced. */
module Events {
  import opened Base

  datatype Repository = Repository(fullName: string, cloneUrl: string, private: bool)

  datatype Sender = Sender(login: string)

  /** GithubGenericEvent: what every event carries. */
  datatype GenericEvent = GenericEvent(repository: Repository, sender: Sender)

  datatype Pusher = Pusher(name: string, email: string)

  /** GithubPushEvent. `generic` is its embedded *GithubGenericEvent, None
      when the payload named neither a repository nor a sender and the
      pointer stayed nil. */
  datatype PushEvent = PushEvent(generic: Option<GenericEvent>, ref: string, before: string, after: string, pusher: Pusher)
}
