/** The contact list's search box and status filter. */
module ContactList {
  import opened Wrappers
  import opened Types
  import opened Text
  import Seqs
  import ContactForm
  import ContactsStore

  /** The status filter's value that lets every contact through. */
  const All := "all"

  /** The search term occurs, ignoring case, in the name, company or email. */
  predicate MatchesSearch(c: Contact, term: string) {
    MatchesTerm(c.name, term) || MatchesTerm(c.company, term) || MatchesTerm(c.email, term)
  }

  /** The filter is `'all'` or the contact's status code. */
  predicate MatchesStatus(c: Contact, filter: string) {
    filter == All || ContactStatusCode(c.status) == filter
  }

  predicate Shown(c: Contact, term: string, filter: string) {
    MatchesSearch(c, term) && MatchesStatus(c, filter)
  }

  /** `filteredContacts`: the contacts the list shows, in store order. */
  function FilterContacts(contacts: seq<Contact>, term: string, filter: string): (r: seq<Contact>)
    ensures forall c :: c in r <==> c in contacts && Shown(c, term, filter)
  {
    var keep := (c: Contact) => Shown(c, term, filter);
    Seqs.FilterMembers(contacts, keep);
    Seqs.Filter(contacts, keep)
  }

  /** An empty search with the `'all'` filter shows every contact. */
  lemma FilterContactsShowsAll(contacts: seq<Contact>)
    ensures FilterContacts(contacts, "", All) == contacts
  {
    forall i | 0 <= i < |contacts| ensures Shown(contacts[i], "", All) {
      ContainsEmpty(Lower(contacts[i].name));
    }
    Seqs.FilterKeepsAll(contacts, (c: Contact) => Shown(c, "", All));
  }

  /** The view only drops contacts; it never reorders them. */
  lemma FilterContactsSubseq(contacts: seq<Contact>, term: string, filter: string)
    ensures Seqs.IsSubseq(FilterContacts(contacts, term, filter), contacts)
  {
    Seqs.FilterIsSubseq(contacts, (c: Contact) => Shown(c, term, filter));
  }

  /** Filtering the shown contacts again changes nothing. */
  lemma FilterContactsIdempotent(contacts: seq<Contact>, term: string, filter: string)
    ensures FilterContacts(FilterContacts(contacts, term, filter), term, filter)
         == FilterContacts(contacts, term, filter)
  {
    Seqs.FilterIdempotent(contacts, (c: Contact) => Shown(c, term, filter));
  }

  /** The search ignores case: terms that lower-case alike show the same
      contacts. */
  lemma FilterContactsIgnoresCase(contacts: seq<Contact>, term1: string, term2: string, filter: string)
    requires Lower(term1) == Lower(term2)
    ensures FilterContacts(contacts, term1, filter) == FilterContacts(contacts, term2, filter)
  {
    Seqs.FilterExt(contacts, (c: Contact) => Shown(c, term1, filter),
                   (c: Contact) => Shown(c, term2, filter));
  }

  /** Choosing a status never shows more contacts than `'all'` does. */
  lemma FilterContactsStatusNarrows(contacts: seq<Contact>, term: string, filter: string)
    ensures |FilterContacts(contacts, term, filter)| <= |FilterContacts(contacts, term, All)|
  {
    Seqs.FilterMonotone(contacts, (c: Contact) => Shown(c, term, filter),
                        (c: Contact) => Shown(c, term, All));
  }

  /** The list's contact form submits into the contacts store: a form that
      passes its checks adds its contact, built from the form, in front of
      the list, and returns to its defaults with no errors; a form that
      fails adds nothing and shows the failed checks. */
  method SubmitContactForm(form: ContactForm.ContactFormState, store: ContactsStore.ContactStore,
                           today: string, id: string)
    returns (added: Option<Contact>)
    modifies form, store
    ensures added.Some? <==> ContactForm.Valid(old(form.data))
    ensures added.Some? ==>
              added.value == ContactsStore.CreateContact(ContactForm.BuildContact(old(form.data), today), id)
              && store.contacts == [added.value] + old(store.contacts)
              && form.data == ContactForm.Defaults && form.errors == ContactForm.NoErrors
    ensures added.None? ==>
              store.contacts == old(store.contacts) && form.data == old(form.data)
              && form.errors == ContactForm.ContactErrors(old(form.data))
  {
    var submitted := form.HandleSubmit(today);
    if submitted.Some? {
      var c := store.AddContact(submitted.value, id);
      added := Some(c);
    } else {
      added := None;
    }
  }
}
