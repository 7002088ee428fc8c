/** Contact deletion (`controllers/deleteContact.js`): the id must be 24 hexadecimal
    characters, then the contact with that id is removed from the store. */
module DeleteContact {
  import opened Base

  /** A stored contact (`Models/contact.Model.js`). */
  datatype Contact = Contact(firstName: string, lastName: string, email: string,
                             message: string, version: string, createdAt: int)

  predicate IsHexDigit(c: char)
  {
    '0' <= c <= '9' || 'a' <= c <= 'f' || 'A' <= c <= 'F'
  }

  /** `/^[0-9a-fA-F]{24}$/` run as a matcher: `count` more hex digits, then the end of the
      input. */
  function MatchesHexRun(s: string, count: nat): bool
    decreases count
  {
    if count == 0 then s == []
    else |s| > 0 && IsHexDigit(s[0]) && MatchesHexRun(s[1..], count - 1)
  }

  /** The id check of the route. */
  function IsObjectIdHex(id: string): bool
  {
    MatchesHexRun(id, 24)
  }

  lemma {:induction false} MatchesHexRunMeaning(s: string, count: nat)
    ensures MatchesHexRun(s, count) <==> |s| == count && forall i :: 0 <= i < |s| ==> IsHexDigit(s[i])
    decreases count
  {
    if count > 0 && |s| > 0 {
      MatchesHexRunMeaning(s[1..], count - 1);
      if |s| == count && forall i :: 0 <= i < |s| ==> IsHexDigit(s[i]) {
        assert forall i :: 0 <= i < |s[1..]| ==> IsHexDigit(s[1..][i]) by {
          forall i | 0 <= i < |s[1..]| ensures IsHexDigit(s[1..][i]) {
            assert s[1..][i] == s[i + 1];
          }
        }
      }
    }
  }

  /** An id is accepted exactly when it is 24 characters, every one a hexadecimal digit. */
  lemma IsObjectIdHexMeaning(id: string)
    ensures IsObjectIdHex(id) <==> |id| == 24 && forall i :: 0 <= i < |id| ==> IsHexDigit(id[i])
  {
    MatchesHexRunMeaning(id, 24);
  }

  /** The key an accepted id denotes: casting to an ObjectId ignores the case of the hex
      digits, and a stored ObjectId prints in lower case. */
  function KeyOf(id: string): (k: string)
    ensures |k| == |id|
  {
    Lower(id)
  }

  /** Two ids that differ only in the case of their letters name the same contact. */
  lemma {:induction false} KeyIgnoresCase(a: string, b: string)
    requires |a| == |b| && forall i :: 0 <= i < |a| ==> LowerChar(a[i]) == LowerChar(b[i])
    ensures KeyOf(a) == KeyOf(b)
  {
    assert forall i :: 0 <= i < |a| ==> KeyOf(a)[i] == KeyOf(b)[i];
  }

  datatype ContactResponse =
    | ContactDeleted(message: string)      // 200
    | ContactBadRequest(message: string)   // 400
    | ContactNotFound(message: string)     // 404

  /** The contacts collection, keyed by the printed ObjectId. */
  class ContactStore {
    var contacts: map<string, Contact>

    constructor ()
      ensures contacts == map[]
    {
      contacts := map[];
    }

    /** `deleteContact`: an ill-formed id is refused before the store is read, an absent one
        leaves it unchanged, and a present one removes exactly that contact. */
    method Delete(id: string) returns (resp: ContactResponse)
      modifies this
      ensures !IsObjectIdHex(id) ==> resp == ContactBadRequest("Invalid contact ID format") && contacts == old(contacts)
      ensures IsObjectIdHex(id) && KeyOf(id) !in old(contacts) ==>
                resp == ContactNotFound("Contact not found") && contacts == old(contacts)
      ensures IsObjectIdHex(id) && KeyOf(id) in old(contacts) ==>
                resp == ContactDeleted("Contact deleted successfully")
                && contacts == old(contacts) - {KeyOf(id)}
      ensures forall k :: k in contacts <==> k in old(contacts) && !(resp.ContactDeleted? && k == KeyOf(id))
      ensures forall k :: k in contacts ==> contacts[k] == old(contacts)[k]
    {
      if !IsObjectIdHex(id) {
        return ContactBadRequest("Invalid contact ID format");
      }
      var key := KeyOf(id);
      if key !in contacts {
        return ContactNotFound("Contact not found");
      }
      contacts := contacts - {key};
      resp := ContactDeleted("Contact deleted successfully");
    }
  }
}
