/** The new-client page: the cache append after the client is created, the
    mutation input taken from the form, and the message shown afterwards. */
module NewClient {
  import opened JsValues
  import opened JsStrings
  import CacheLists

  /** The append to the cached `getClientsBySeller` list: the created client
      goes last, behind the old entries, even when its id is already cached. */
  function AddClientUpdate(cached: seq<Record>, created: Record): (r: seq<Record>)
    ensures |r| == |cached| + 1
    ensures r[..|cached|] == cached && r[|cached|] == created
    ensures CacheLists.CountId(r, IdOf(created)) == CacheLists.CountId(cached, IdOf(created)) + 1
  {
    CacheLists.AppendCountsDuplicate(cached, created);
    CacheLists.Append(cached, created)
  }

  /** `{ name, lastName, company, email, phone }` read from the form values. */
  function ClientInput(values: Record): (input: Record)
    ensures input.Keys == {"name", "lastName", "company", "email", "phone"}
    ensures forall k :: k in input ==> input[k] == Get(values, k)
  {
    map["name" := Get(values, "name"), "lastName" := Get(values, "lastName"),
        "company" := Get(values, "company"), "email" := Get(values, "email"),
        "phone" := Get(values, "phone")]
  }

  const CreatedMessage: string := "Client added successfully"
  const DuplicateMessage: string := "Client already exists"

  /** The message after `onSubmit`: a fixed text on success, the error text
      without its first "GraphQL error: " on failure. */
  function SubmitMessage(outcome: Result<Val, string>): (message: string)
    ensures outcome.Success? ==> message == CreatedMessage
    ensures outcome.Failure? && IndexOf(outcome.error, GraphQLErrorPrefix).None? ==>
              message == outcome.error
    ensures outcome.Failure? && IndexOf(outcome.error, GraphQLErrorPrefix).Some? ==>
              var i := IndexOf(outcome.error, GraphQLErrorPrefix).value;
              |message| == |outcome.error| - |GraphQLErrorPrefix| &&
              message[..i] + GraphQLErrorPrefix + message[i..] == outcome.error
    ensures outcome.Failure? && |GraphQLErrorPrefix| <= |outcome.error| &&
            outcome.error[..|GraphQLErrorPrefix|] == GraphQLErrorPrefix ==>
              message == outcome.error[|GraphQLErrorPrefix|..]
  {
    match outcome
    case Success(_) => CreatedMessage
    case Failure(error) =>
      RemoveLeadingPattern(error, GraphQLErrorPrefix);
      RemoveFirst(error, GraphQLErrorPrefix)
  }

  /** The message box is red exactly for the duplicate-client message. */
  function MessageClass(message: string): (c: string)
    ensures c == "bg-red-500" <==> message == DuplicateMessage
    ensures c == "bg-green-500" <==> message != DuplicateMessage
  {
    if message == DuplicateMessage then "bg-red-500" else "bg-green-500"
  }

  /** The server's duplicate-client error shows red, with or without the
      prefix. */
  lemma DuplicateClientShowsRed(error: string)
    requires error == GraphQLErrorPrefix + DuplicateMessage || error == DuplicateMessage
    ensures MessageClass(SubmitMessage(Failure(error))) == "bg-red-500"
  {
    if error == GraphQLErrorPrefix + DuplicateMessage {
      RemoveFirstOfPrefixed(GraphQLErrorPrefix, DuplicateMessage);
    } else {
      AbsentCharNoOccurrence(error, GraphQLErrorPrefix, 'G');
    }
  }

  /** Any successful creation shows green. */
  lemma SuccessShowsGreen(created: Val)
    ensures MessageClass(SubmitMessage(Success(created))) == "bg-green-500"
  {
  }

  /** Only the five form fields reach the mutation: any other form value,
      whatever it holds, leaves the input as it was. */
  lemma ClientInputIgnoresOtherFields(values: Record, key: string, v: Val)
    requires key !in {"name", "lastName", "company", "email", "phone"}
    ensures ClientInput(values[key := v]) == ClientInput(values)
  {
  }
}
