/** The replies the handlers send, and the application's error handler. */
module Http {
  import opened Wrappers
  import opened External
  import opened UserSchema
  import opened TaskSchema
  import opened CategorySchema

  datatype Body =
    | Message(text: string)                  // { message }
    | Error(text: string)                    // { error }
    | Errors(messages: seq<string>)          // { errors: validationResult(req).array() }
    | TokenIssued(token: Token)              // { token }
    | Profile(user: Option<User>)            // the user document, or null
    | PublicProfile(profile: Option<PublicUser>)
    | TaskReply(text: string, task: Task)    // { message, task }
    | TaskPage(text: string, tasks: map<ObjectId, Task>)
    | CategoryReply(text: string, category: Option<Category>)
    | CategoryList(text: string, categories: map<ObjectId, Category>)
    | Invalid                                // { error: err.message } of a Mongoose ValidationError
    | Failure                                // { message: 'An error occurred', error }

  datatype Response = Response(status: int, body: Body)

  /** Whatever a handler passes to `next` reaches the last middleware, which answers 500. */
  const ServerError := Response(500, Failure)
}
