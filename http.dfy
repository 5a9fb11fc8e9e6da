/**
 * The response a handler sends: its HTTP status, whether the JSON body
 * carries `error: true`, its `message` ("" when the body has none) and the
 * rest of the body.
 */
module Http {
  import opened Records

  datatype Payload =
    | Nothing
    | Account(fullName: string, email: string)   // `user: { fullName, email }`
    | Profile(user: User)                         // `user: <the whole record>`
    | Image(imageUrl: string)
    | OneStory(story: Story)
    | Stories(stories: seq<Story>)

  datatype Response = Response(status: nat, error: bool, message: string, payload: Payload)

  /** A response whose body is `{ error: true, message }`. */
  function Fail(status: nat, message: string): Response
  {
    Response(status, true, message, Nothing)
  }

  const AllFieldsRequired: string := "All fields are required"
}
