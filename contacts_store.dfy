/** The contacts store: the list of contacts with add, update and delete.
    New contacts go to the front; updates add no timestamp. The new id
    (`Date.now()` in the application) is passed in. */
module ContactsStore {
  import opened Wrappers
  import opened Types
  import Seqs
  import DealsStore

  /** The form's contact: a contact without its id. */
  datatype NewContact = NewContact(
    name: string,
    email: string,
    phone: string,
    company: string,
    position: string,
    status: ContactStatus,
    lastContact: string,
    avatar: Option<string>,
    tags: seq<string>)

  /** `Partial<Contact>`: the properties an update names. */
  datatype ContactPatch = ContactPatch(
    id: Option<string>,
    name: Option<string>,
    email: Option<string>,
    phone: Option<string>,
    company: Option<string>,
    position: Option<string>,
    status: Option<ContactStatus>,
    lastContact: Option<string>,
    avatar: Option<string>,
    tags: Option<seq<string>>)

  const EmptyPatch := ContactPatch(None, None, None, None, None, None, None, None, None, None)

  /** `{ ...newContactData, id }`. */
  function CreateContact(data: NewContact, id: string): Contact {
    Contact(id, data.name, data.email, data.phone, data.company, data.position,
            data.status, data.lastContact, data.avatar, data.tags)
  }

  /** The contact without its id. */
  function WithoutId(c: Contact): NewContact {
    NewContact(c.name, c.email, c.phone, c.company, c.position, c.status,
               c.lastContact, c.avatar, c.tags)
  }

  /** `{ ...contact, ...updates }`. */
  function Merge(c: Contact, p: ContactPatch): Contact {
    Contact(p.id.GetOr(c.id), p.name.GetOr(c.name), p.email.GetOr(c.email),
            p.phone.GetOr(c.phone), p.company.GetOr(c.company),
            p.position.GetOr(c.position), p.status.GetOr(c.status),
            p.lastContact.GetOr(c.lastContact),
            if p.avatar.Some? then p.avatar else c.avatar,
            p.tags.GetOr(c.tags))
  }

  /** The list `updateContact` leaves. */
  function UpdateContacts(contacts: seq<Contact>, contactId: string, p: ContactPatch): (r: seq<Contact>)
    ensures |r| == |contacts|
  {
    seq(|contacts|, i requires 0 <= i < |contacts| =>
      if contacts[i].id == contactId then Merge(contacts[i], p) else contacts[i])
  }

  /** The list `deleteContact` leaves. */
  function DeleteContacts(contacts: seq<Contact>, contactId: string): seq<Contact> {
    Seqs.Filter(contacts, (c: Contact) => c.id != contactId)
  }

  function Ids(contacts: seq<Contact>): set<string> {
    set i | 0 <= i < |contacts| :: contacts[i].id
  }

  class ContactStore {
    var contacts: seq<Contact>

    constructor (initial: seq<Contact>)
      ensures contacts == initial
    {
      contacts := initial;
    }

    /** `addContact`: gives the data an id, puts it in front, returns it. */
    method AddContact(data: NewContact, id: string) returns (c: Contact)
      modifies this
      ensures c == CreateContact(data, id)
      ensures contacts == [c] + old(contacts)
    {
      c := CreateContact(data, id);
      contacts := [c] + contacts;
    }

    /** `updateContact`. */
    method UpdateContact(contactId: string, updates: ContactPatch)
      modifies this
      ensures contacts == UpdateContacts(old(contacts), contactId, updates)
    {
      contacts := UpdateContacts(contacts, contactId, updates);
    }

    /** `deleteContact`. */
    method DeleteContact(contactId: string)
      modifies this
      ensures contacts == DeleteContacts(old(contacts), contactId)
    {
      contacts := DeleteContacts(contacts, contactId);
    }
  }

  /** Updating a contact leaves the deals store, and so every deal's
      embedded contact snapshot, as it was: the two stores are separate. */
  method UpdateContactKeepsDeals(store: ContactStore, deals: DealsStore.DealStore,
                                 contactId: string, updates: ContactPatch)
    modifies store
    ensures store.contacts == UpdateContacts(old(store.contacts), contactId, updates)
    ensures deals.deals == old(deals.deals)
  {
    store.UpdateContact(contactId, updates);
  }

  /** The new contact is the data plus the id, nothing else. */
  lemma CreateContactFields(data: NewContact, id: string)
    ensures WithoutId(CreateContact(data, id)) == data
    ensures CreateContact(data, id).id == id
  {
  }

  /** An empty patch changes no contact. */
  lemma MergeEmpty(c: Contact)
    ensures Merge(c, EmptyPatch) == c
  {
  }

  /** An update never touches contacts with another id, keeps length and
      order, and with an empty patch or an absent id changes nothing. */
  lemma UpdateContactsSpec(contacts: seq<Contact>, contactId: string, p: ContactPatch)
    ensures forall i :: 0 <= i < |contacts| && contacts[i].id != contactId ==>
              UpdateContacts(contacts, contactId, p)[i] == contacts[i]
    ensures forall i :: 0 <= i < |contacts| && contacts[i].id == contactId ==>
              UpdateContacts(contacts, contactId, p)[i] == Merge(contacts[i], p)
    ensures UpdateContacts(contacts, contactId, EmptyPatch) == contacts
    ensures contactId !in Ids(contacts) ==> UpdateContacts(contacts, contactId, p) == contacts
  {
    assert forall i :: 0 <= i < |contacts| ==> contacts[i].id in Ids(contacts);
  }

  /** `deleteContact` keeps exactly the contacts with another id, every
      copy of them, in order. */
  lemma DeleteContactsSpec(contacts: seq<Contact>, contactId: string)
    ensures Seqs.IsSubseq(DeleteContacts(contacts, contactId), contacts)
    ensures forall i :: 0 <= i < |contacts| && contacts[i].id != contactId ==>
              contacts[i] in DeleteContacts(contacts, contactId)
    ensures contactId !in Ids(DeleteContacts(contacts, contactId))
    ensures forall c :: c in multiset(contacts) ==>
              multiset(DeleteContacts(contacts, contactId))[c]
                == if c.id != contactId then multiset(contacts)[c] else 0
    ensures multiset(DeleteContacts(contacts, contactId)) <= multiset(contacts)
  {
    Seqs.FilterIsSubseq(contacts, (c: Contact) => c.id != contactId);
    Seqs.FilterMultiset(contacts, (c: Contact) => c.id != contactId);
    Seqs.FilterMembers(contacts, (c: Contact) => c.id != contactId);
    var r := DeleteContacts(contacts, contactId);
    forall x | x in Ids(r) ensures x != contactId {
      var i :| 0 <= i < |r| && r[i].id == x;
    }
  }
}
