/**
 * The contact list of a project: the user's contacts grouped by role,
 * shown in a fixed order of roles, each with a phone and a mail link.
 */
module Contact {
  import opened Common

  /** A contact as listed by `get-contact-details`. */
  datatype Contact = Contact(userId: string, username: string, mobile: string, email: string)

  /** The roles shown, in the order they are shown. */
  const RoleOrder: seq<string> := ["Management Team", "Project Manager", "Admin", "Subcontractor"]

  /** A shown section: a role and its contacts. */
  datatype RoleGroup = RoleGroup(role: string, contacts: seq<Contact>)

  function RolesOf(groups: seq<RoleGroup>): (roles: seq<string>)
    ensures |roles| == |groups|
    ensures forall i :: 0 <= i < |groups| ==> roles[i] == groups[i].role
  {
    if groups == [] then [] else [groups[0].role] + RolesOf(groups[1..])
  }

  /** The role has a non-empty list of contacts. */
  predicate HasContacts(grouped: map<string, seq<Contact>>, role: string)
  {
    role in grouped && grouped[role] != []
  }

  /**
   * The sections for `roles`: one per role with contacts, in the order of
   * `roles`, each holding that role's contacts in the order received.
   */
  function Groups(grouped: map<string, seq<Contact>>, roles: seq<string>): (groups: seq<RoleGroup>)
    ensures IsSubsequence(RolesOf(groups), roles)
    ensures forall g :: g in groups ==> HasContacts(grouped, g.role) && g.contacts == grouped[g.role]
    ensures forall r :: r in roles && HasContacts(grouped, r) ==> exists g :: g in groups && g.role == r
  {
    if roles == [] then []
    else
      var rest := Groups(grouped, roles[1..]);
      SubsequenceOfCons(RolesOf(rest), roles[0], roles[1..]);
      assert [roles[0]] + roles[1..] == roles;
      if HasContacts(grouped, roles[0]) then
        var groups := [RoleGroup(roles[0], grouped[roles[0]])] + rest;
        assert RolesOf(groups) == [roles[0]] + RolesOf(rest);
        assert RolesOf(groups)[1..] == RolesOf(rest);
        assert groups[0].role == roles[0];
        groups
      else
        rest
  }

  /** Roles outside the fixed four are never shown. */
  lemma UnlistedRolesHidden(grouped: map<string, seq<Contact>>, g: RoleGroup)
    requires g in Groups(grouped, RoleOrder)
    ensures g.role in RoleOrder
  {
    var groups := Groups(grouped, RoleOrder);
    var i :| 0 <= i < |groups| && groups[i] == g;
    assert RolesOf(groups)[i] == g.role;
    SubsequenceElements(RolesOf(groups), RoleOrder, i);
  }

  /** What the screen shows once loaded. */
  datatype Rendered = Crash | Sections(groups: seq<RoleGroup>)

  /** As written: a response without `grouped_contacts` is stored as `undefined`, and indexing it throws. */
  function RenderAsWritten(contacts: Option<map<string, seq<Contact>>>): (r: Rendered)
    ensures contacts.None? <==> r == Crash
  {
    if contacts.None? then Crash else Sections(Groups(contacts.value, RoleOrder))
  }

  /** The screen crashes on a response without the field. */
  lemma MissingFieldCrashes()
    ensures RenderAsWritten(None) == Crash
  {
  }

  /** As evidently intended: a missing field shows no section, like an empty one. */
  function Render(contacts: Option<map<string, seq<Contact>>>): (r: Rendered)
    ensures r.Sections?
    ensures contacts.None? ==> r.groups == []
    ensures contacts.Some? ==> r == RenderAsWritten(contacts)
  {
    Sections(Groups(if contacts.Some? then contacts.value else map[], RoleOrder))
  }

  /** Nothing is shown for no contacts: every section needs a role with contacts. */
  lemma {:induction false} NoContactsNoSections(roles: seq<string>)
    ensures Groups(map[], roles) == []
    decreases |roles|
  {
    if roles != [] {
      NoContactsNoSections(roles[1..]);
    }
  }

  /** The phone link of a contact. */
  function TelLink(mobile: string): (url: string)
    ensures StartsWith(url, "tel:") && url[4..] == mobile
  {
    "tel:" + mobile
  }

  /** The mail link of a contact. */
  function MailtoLink(email: string): (url: string)
    ensures StartsWith(url, "mailto:") && url[7..] == email
  {
    "mailto:" + email
  }

  /** The state of the contact list: the `grouped_contacts` object, or `undefined`. */
  class ContactScreen {
    var contacts: Option<map<string, seq<Contact>>>
    var loading: bool

    constructor ()
      ensures contacts == Some(map[]) && loading
    {
      contacts, loading := Some(map[]), true;
    }

    /**
     * What the loaded screen shows, as written: a crash once the field was
     * missing from the response, and otherwise the sections of the listed roles.
     */
    function Shown(): (r: Rendered)
      reads this
      ensures r == Crash <==> contacts.None?
      ensures r.Sections? ==> r == Render(contacts)
      ensures r.Sections? ==> forall g :: g in r.groups ==> g.role in RoleOrder
    {
      var r := RenderAsWritten(contacts);
      if contacts.Some? then
        forall g | g in r.groups
          ensures g.role in RoleOrder
        {
          UnlistedRolesHidden(contacts.value, g);
        }
        r
      else
        r
    }

    /** What the loaded screen shows with `Render`: a missing field reads as no contacts. */
    function ShownCorrected(): (r: Rendered)
      reads this
      ensures r.Sections?
      ensures contacts.Some? ==> r == Shown()
      ensures contacts.None? ==> r.groups == []
      ensures forall g :: g in r.groups ==> g.role in RoleOrder
    {
      var r := Render(contacts);
      forall g | g in r.groups
        ensures g.role in RoleOrder
      {
        UnlistedRolesHidden(if contacts.Some? then contacts.value else map[], g);
      }
      r
    }

    /** `fetchContact`: the response's field replaces the contacts, a failure keeps them; loading ends. */
    method FetchContact(response: Fetch<Option<map<string, seq<Contact>>>>)
      modifies this
      ensures contacts == if response.Received? then response.data else old(contacts)
      ensures !loading
    {
      if response.Received? {
        contacts := response.data;
      }
      loading := false;
    }
  }
}
