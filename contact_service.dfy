/** Whitelist and special-contact matching (`src/services/contactService.js`).
    The lists the loaders read from `contacts.json`, `special_contacts.js`,
    `allowed_numbers.json` and `allowed_groups.json` are parameters here. */
module ContactService {
  import opened Wrappers
  import opened JsText

  /** An entry of the number whitelist; `number` is `None` when it is missing. */
  datatype AllowedNumber = AllowedNumber(number: Option<string>, labelText: Option<string>)

  /** An entry of the group whitelist; `groupId` is `None` when it is missing. */
  datatype AllowedGroup = AllowedGroup(groupId: Option<string>, labelText: Option<string>)

  /** A known contact. `phone` is `[]` when the file's `phone` is not an array;
      `name`, `role` and `instruction` are `None` when missing. */
  datatype Contact = Contact(name: Option<string>, role: Option<string>, phone: seq<string>, instruction: Option<string>)

  /** `normalizeNumber`: the digits of `num`, in order; a missing number gives ''. */
  function NormalizeNumber(num: Option<string>): (r: string)
    ensures forall i :: 0 <= i < |r| ==> IsDigit(r[i])
    ensures num.None? || num == Some("") ==> r == ""
  {
    if num.None? then "" else DigitsOnly(num.value)
  }

  /** A normalised number holds every digit of the number as often as it occurs. */
  lemma NormalizeKeepsDigits(num: string, c: char)
    requires IsDigit(c)
    ensures multiset(NormalizeNumber(Some(num)))[c] == multiset(num)[c]
  {
    DigitsOnlyKeepsDigits(num, c);
  }

  /** Keeping only digits distributes over concatenation. */
  lemma {:induction false} DigitsOnlyAppend(a: string, b: string)
    ensures DigitsOnly(a + b) == DigitsOnly(a) + DigitsOnly(b)
  {
    if a == [] {
      assert a + b == b;
    } else {
      assert (a + b)[0] == a[0];
      assert (a + b)[1..] == a[1..] + b;
      DigitsOnlyAppend(a[1..], b);
    }
  }

  /** A string of digits only is left unchanged. */
  lemma {:induction false} DigitsOnlyOfDigits(s: string)
    requires forall i :: 0 <= i < |s| ==> IsDigit(s[i])
    ensures DigitsOnly(s) == s
  {
    if s != [] {
      DigitsOnlyOfDigits(s[1..]);
    }
  }

  /** `normalizeNumber` is idempotent. */
  lemma NormalizeIdempotent(num: Option<string>)
    ensures NormalizeNumber(Some(NormalizeNumber(num))) == NormalizeNumber(num)
  {
    DigitsOnlyOfDigits(NormalizeNumber(num));
  }

  /** The symmetric-suffix rule shared by `matchPhone` and `isNumberAllowed`:
      `known === incoming || (known && incoming.endsWith(known)) ||
      (incoming && known.endsWith(incoming))`. */
  predicate SuffixMatch(known: string, incoming: string) {
    known == incoming
    || (known != "" && EndsWith(incoming, known))
    || (incoming != "" && EndsWith(known, incoming))
  }

  lemma SuffixMatchSymmetric(a: string, b: string)
    ensures SuffixMatch(a, b) <==> SuffixMatch(b, a)
  {
  }

  /** A number with no digits matches only another number with no digits. */
  lemma {:induction false} SuffixMatchEmpty(a: string, b: string)
    requires a == ""
    ensures SuffixMatch(a, b) <==> b == ""
  {
    if b != "" {
      assert !EndsWith(a, b);
    }
  }

  /** `matchPhone(incomingNumber, contact)`: some phone of the contact matches. */
  predicate MatchPhone(incomingNumber: string, contact: Contact) {
    var incoming := NormalizeNumber(Some(incomingNumber));
    exists i :: 0 <= i < |contact.phone| && SuffixMatch(NormalizeNumber(Some(contact.phone[i])), incoming)
  }

  /** Unlike the whitelist, `matchPhone` has no empty-number guard: an incoming
      number without digits matches every contact that has a phone without digits. */
  lemma MatchPhoneWithoutDigits(incomingNumber: string, contact: Contact)
    requires NormalizeNumber(Some(incomingNumber)) == ""
    ensures MatchPhone(incomingNumber, contact) <==>
      exists i :: 0 <= i < |contact.phone| && NormalizeNumber(Some(contact.phone[i])) == ""
  {
    forall i | 0 <= i < |contact.phone|
      ensures SuffixMatch(NormalizeNumber(Some(contact.phone[i])), "") <==> NormalizeNumber(Some(contact.phone[i])) == ""
    {
      SuffixMatchSymmetric(NormalizeNumber(Some(contact.phone[i])), "");
      SuffixMatchEmpty("", NormalizeNumber(Some(contact.phone[i])));
    }
  }

  /** Whether some entry from index `from` on matches the (normalised) incoming number. */
  function AnyNumberMatches(allowed: seq<AllowedNumber>, incoming: string, from: nat): (r: bool)
    requires from <= |allowed|
    ensures r <==> exists i :: from <= i < |allowed| && SuffixMatch(NormalizeNumber(allowed[i].number), incoming)
    decreases |allowed| - from
  {
    if from == |allowed| then false
    else SuffixMatch(NormalizeNumber(allowed[from].number), incoming) || AnyNumberMatches(allowed, incoming, from + 1)
  }

  /** `isNumberAllowed(senderNumber)` against the loaded whitelist `allowed`. */
  function IsNumberAllowed(allowed: seq<AllowedNumber>, senderNumber: string): (r: bool)
    ensures allowed == [] ==> !r
    ensures NormalizeNumber(Some(senderNumber)) == "" ==> !r
    ensures r <==> (NormalizeNumber(Some(senderNumber)) != "" &&
      exists i :: 0 <= i < |allowed| && SuffixMatch(NormalizeNumber(allowed[i].number), NormalizeNumber(Some(senderNumber))))
  {
    if |allowed| == 0 then false
    else
      var incoming := NormalizeNumber(Some(senderNumber));
      if incoming == "" then false
      else AnyNumberMatches(allowed, incoming, 0)
  }

  /** A whitelist entry without digits never admits anyone, and an entry admits
      a sender exactly when one normalised number is a suffix of the other. */
  lemma {:induction false} AllowedEntryMatch(entry: AllowedNumber, senderNumber: string)
    requires NormalizeNumber(Some(senderNumber)) != ""
    ensures IsNumberAllowed([entry], senderNumber) <==>
      (NormalizeNumber(entry.number) != "" &&
       (EndsWith(NormalizeNumber(Some(senderNumber)), NormalizeNumber(entry.number)) ||
        EndsWith(NormalizeNumber(entry.number), NormalizeNumber(Some(senderNumber)))))
  {
    var a := NormalizeNumber(entry.number);
    var b := NormalizeNumber(Some(senderNumber));
    assert [entry][0] == entry;
    if a == "" {
      SuffixMatchEmpty(a, b);
    }
    if a == b {
      assert EndsWith(b, a);
    }
  }

  /** `isGroupAllowed(groupId)`: exact equality with some entry's `groupId`. */
  function IsGroupAllowed(groups: seq<AllowedGroup>, groupId: string): (r: bool)
    ensures groups == [] ==> !r
    ensures r <==> exists i :: 0 <= i < |groups| && groups[i].groupId == Some(groupId)
  {
    if groups == [] then false
    else groups[0].groupId == Some(groupId) || IsGroupAllowed(groups[1..], groupId)
  }

  /** The test `find` applies in `getSpecialContact`: a phone match, or the
      contact's name as a case-insensitive substring of the sender's name. */
  predicate ContactMatches(c: Contact, incoming: string, senderName: string) {
    MatchPhone(incoming, c)
    || (c.name.Some? && c.name.value != "" && senderName != ""
        && Includes(ToLower(senderName), ToLower(c.name.value)))
  }

  /** Index of the first contact of `list`, from `from` on, that `ContactMatches`. */
  function FirstMatch(list: seq<Contact>, incoming: string, senderName: string, from: nat): (r: Option<nat>)
    requires from <= |list|
    ensures r.Some? ==> from <= r.value < |list| && ContactMatches(list[r.value], incoming, senderName)
    ensures r.Some? ==> forall j :: from <= j < r.value ==> !ContactMatches(list[j], incoming, senderName)
    ensures r.None? ==> forall j :: from <= j < |list| ==> !ContactMatches(list[j], incoming, senderName)
    decreases |list| - from
  {
    if from == |list| then None
    else if ContactMatches(list[from], incoming, senderName) then Some(from)
    else FirstMatch(list, incoming, senderName, from + 1)
  }

  /** `getSpecialContact(senderNumber, senderName)`. `contacts` is `None` when
      loading `contacts.json` throws (that loader catches nothing), which the
      function turns into `null`; the special-contact loader already falls back to []. */
  function GetSpecialContact(contacts: Option<seq<Contact>>, special: seq<Contact>,
                             senderNumber: string, senderName: string): (r: Option<Contact>)
    ensures contacts.None? ==> r.None?
    ensures contacts.Some? ==>
      var list := contacts.value + special;
      var incoming := RemoveFirst(senderNumber, "@c.us");
      (r.None? <==> forall j :: 0 <= j < |list| ==> !ContactMatches(list[j], incoming, senderName)) &&
      (r.Some? ==> exists i :: 0 <= i < |list| && list[i] == r.value
                     && ContactMatches(list[i], incoming, senderName)
                     && forall j :: 0 <= j < i ==> !ContactMatches(list[j], incoming, senderName))
  {
    match contacts
    case None => None
    case Some(loaded) =>
      var list := loaded + special;
      var incoming := RemoveFirst(senderNumber, "@c.us");
      match FirstMatch(list, incoming, senderName, 0)
      case None => None
      case Some(i) => Some(list[i])
  }
}
