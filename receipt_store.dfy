/**
 * The client's receipt store: the list of the signed-in user's receipts,
 * kept in step with the server after each successful request.
 */
module ReceiptStore {
  import opened Wrappers
  import opened AuthStore
  import Text

  /** A receipt as the server returns it: its id, and the other fields uninterpreted. */
  datatype ClientReceipt = ClientReceipt(id: int, fields: map<string, string>)

  /** One entry of a multipart form: FormData.append turns every value that is not a file into a string. */
  datatype FormValue = StringValue(text: string) | File(bytes: seq<bv8>)

  type FormData = seq<(string, FormValue)>

  /** The request a receipt operation sends. */
  datatype Request = GetRequest(userId: int) | PostRequest(form: FormData) | DeleteRequest(id: int)

  /** What createReceipt resolves to: { success: true } or { success: false, error }. */
  datatype Outcome = Succeeded | Failed(error: string)

  /** The TypeError message of reading `id` from a null user. */
  const NullUserError: string := "Cannot read properties of null (reading 'id')"

  /** The receipts whose id differs from id, in their original order (Array.prototype.filter). */
  function Without(receipts: seq<ClientReceipt>, id: int): (r: seq<ClientReceipt>)
    ensures |r| <= |receipts|
    ensures forall x :: x in r ==> x in receipts && x.id != id
  {
    if receipts == [] then []
    else if receipts[0].id != id then [receipts[0]] + Without(receipts[1..], id)
    else Without(receipts[1..], id)
  }

  /** How many receipts carry this id. */
  function CountId(receipts: seq<ClientReceipt>, id: int): nat
  {
    if receipts == [] then 0
    else (if receipts[0].id == id then 1 else 0) + CountId(receipts[1..], id)
  }

  /** A receipt survives the filter exactly when it was there and has another id. */
  lemma {:induction false} WithoutMembers(receipts: seq<ClientReceipt>, id: int, r: ClientReceipt)
    ensures r in Without(receipts, id) <==> r in receipts && r.id != id
  {
    if receipts != [] {
      WithoutMembers(receipts[1..], id, r);
    }
  }

  /** No receipt with the deleted id is left. */
  lemma NoneLeft(receipts: seq<ClientReceipt>, id: int)
    ensures CountId(Without(receipts, id), id) == 0
    ensures forall i :: 0 <= i < |Without(receipts, id)| ==> Without(receipts, id)[i].id != id
  {
    forall i | 0 <= i < |Without(receipts, id)|
      ensures Without(receipts, id)[i].id != id
    {
      WithoutMembers(receipts, id, Without(receipts, id)[i]);
    }
    CountZero(Without(receipts, id), id);
  }

  lemma {:induction false} CountZero(receipts: seq<ClientReceipt>, id: int)
    requires forall i :: 0 <= i < |receipts| ==> receipts[i].id != id
    ensures CountId(receipts, id) == 0
  {
    if receipts != [] {
      CountZero(receipts[1..], id);
    }
  }

  /** The length drops by the number of matching receipts. */
  lemma {:induction false} WithoutLength(receipts: seq<ClientReceipt>, id: int)
    ensures |Without(receipts, id)| == |receipts| - CountId(receipts, id)
  {
    if receipts != [] {
      WithoutLength(receipts[1..], id);
    }
  }

  /** Deleting an id that is not in the list leaves the list as it was. */
  lemma {:induction false} WithoutAbsent(receipts: seq<ClientReceipt>, id: int)
    requires CountId(receipts, id) == 0
    ensures Without(receipts, id) == receipts
  {
    if receipts != [] {
      WithoutAbsent(receipts[1..], id);
      assert receipts == [receipts[0]] + receipts[1..];
    }
  }

  /** The filter keeps order: filtering a concatenation is concatenating the filtered parts. */
  lemma {:induction false} WithoutAppend(a: seq<ClientReceipt>, b: seq<ClientReceipt>, id: int)
    ensures Without(a + b, id) == Without(a, id) + Without(b, id)
  {
    if a == [] {
      assert a + b == b;
    } else {
      var ab := a + b;
      assert ab[0] == a[0] && ab[1..] == a[1..] + b;
      WithoutAppend(a[1..], b, id);
      if a[0].id != id {
        calc {
          Without(ab, id);
          [a[0]] + Without(a[1..] + b, id);
          [a[0]] + (Without(a[1..], id) + Without(b, id));
          ([a[0]] + Without(a[1..], id)) + Without(b, id);
        }
      }
    }
  }

  class ReceiptStore {
    var receipts: seq<ClientReceipt>
    const auth: AuthStore

    constructor(auth: AuthStore)
      ensures this.auth == auth && receipts == []
    {
      this.auth := auth;
      receipts := [];
    }

    /**
     * fetchReceipts(): with no user, no request and no change; otherwise the
     * user's receipts are requested and a 2xx response replaces the list.
     */
    method FetchReceipts(response: HttpResult<seq<ClientReceipt>>) returns (sent: Option<Request>)
      modifies this
      ensures auth.user.None? ==> sent.None? && receipts == old(receipts)
      ensures auth.user.Some? ==> sent == Some(GetRequest(auth.user.value.id))
      ensures auth.user.Some? && response.Ok? ==> receipts == response.body
      ensures !response.Ok? ==> receipts == old(receipts)
    {
      if auth.user.None? {
        return None;
      }
      sent := Some(GetRequest(auth.user.value.id));
      if response.Ok? {
        receipts := response.body;
      }
    }

    /**
     * createReceipt(formData): the user's id is appended to the form and
     * posted; a 2xx response appends the returned receipt. Without a user
     * the read of its id throws, and nothing is sent.
     */
    method CreateReceipt(form: FormData, response: HttpResult<ClientReceipt>) returns (result: Outcome, sent: Option<Request>)
      modifies this
      ensures auth.user.None? ==> result == Failed(NullUserError) && sent.None?
      ensures auth.user.Some? ==> sent == Some(PostRequest(form + [("userId", StringValue(Text.IntToString(auth.user.value.id)))]))
      ensures auth.user.Some? && response.Ok? ==> result == Succeeded && receipts == old(receipts) + [response.body]
      ensures auth.user.Some? && response.NotOk? ==> result == Failed(response.text)
      ensures auth.user.Some? && response.NetworkError? ==> result == Failed(response.message)
      ensures result.Failed? ==> receipts == old(receipts)
    {
      if auth.user.None? {
        return Failed(NullUserError), None;
      }
      sent := Some(PostRequest(form + [("userId", StringValue(Text.IntToString(auth.user.value.id)))]));
      match response
      case Ok(created) =>
        receipts := receipts + [created];
        result := Succeeded;
      case NotOk(text) =>
        result := Failed(text);
      case NetworkError(message) =>
        result := Failed(message);
    }

    /** deleteReceipt(id): a 2xx response removes every receipt with that id. */
    method DeleteReceipt(id: int, response: HttpResult<()>) returns (sent: Request)
      modifies this
      ensures sent == DeleteRequest(id)
      ensures response.Ok? ==> receipts == Without(old(receipts), id)
      ensures !response.Ok? ==> receipts == old(receipts)
    {
      sent := DeleteRequest(id);
      if response.Ok? {
        receipts := Without(receipts, id);
      }
    }
  }

  /**
   * Signed in as user 1 with an empty list, creating a receipt that the
   * server stores as id 7 and then deleting id 7 leaves the list empty.
   */
  method CreateThenDelete()
  {
    var auth := new AuthStore(map[UserKey := Account(1, "ana")]);
    var store := new ReceiptStore(auth);
    var created := ClientReceipt(7, map["storeName" := "Acme"]);
    var outcome, posted := store.CreateReceipt([("storeName", StringValue("Acme"))], Ok(created));
    assert outcome == Succeeded && store.receipts == [created];
    var deleted := store.DeleteReceipt(7, Ok(()));
    assert store.receipts == [];
  }
}
