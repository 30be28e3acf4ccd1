/** The per-chat dialog state of internal/bot/volunteer.go and internal/bot/seeker.go:
    the volunteer and seeker payloads, the dialog that carries them, and the handler
    that owns the dialogs, the category list and the collaborators. */
module Session {
  import opened Wrappers
  import opened Checkbox
  import opened Translate
  import Service

  type Locality = Service.Locality

  /** Go's zero `service.Locality`. */
  const ZeroLocality := Service.Locality(0, "", "", "")

  /** `role`: the zero value, then volunteer or seeker. */
  datatype Role = NoRole | RoleVolunteer | RoleSeeker

  /** `dialog.next`, named by the handler it points to. */
  datatype Step =
    | RoleReply
    | VolunteerCategoryCheckbox
    | VolunteerLocalityText
    | VolunteerLocalityButton
    | VolunteerDescription
    | UserCategory
    | SeekerLocalityText
    | SeekerLocalityButton
    | SeekerSubscriptionBtn
  {
    predicate Volunteering() {
      VolunteerCategoryCheckbox? || VolunteerLocalityText? || VolunteerLocalityButton? || VolunteerDescription?
    }
    predicate Seeking() {
      UserCategory? || SeekerLocalityText? || SeekerLocalityButton? || SeekerSubscriptionBtn?
    }
  }

  /** `volunteer`: the checkbox keyboard and selection, the locality candidates and the
      chosen locality, and the description. */
  class Volunteer {
    var categories: seq<Category>
    var categoryKeyboard: array<CategoryCheckbox>
    var localities: seq<Locality>
    var locality: Locality
    var description: string

    /** The selection invariant over this volunteer's keyboard. */
    ghost predicate Valid()
      reads this, categoryKeyboard
    {
      SelectionInv(categoryKeyboard[..], categories)
    }

    /** `new(volunteer)`: every field at its zero value. */
    constructor ()
      ensures categories == [] && localities == [] && locality == ZeroLocality && description == ""
      ensures fresh(categoryKeyboard) && categoryKeyboard.Length == 0
    {
      categories := [];
      localities := [];
      locality := ZeroLocality;
      description := "";
      categoryKeyboard := new CategoryCheckbox[0];
    }
  }

  /** `seeker`: the chosen category, the locality candidates and the chosen locality
      (nil pointers are None). */
  class Seeker {
    var category: Option<CategoryTranslated>
    var localities: seq<Locality>
    var locality: Option<Locality>

    constructor ()
      ensures category.None? && localities == [] && locality.None?
    {
      category := None;
      localities := [];
      locality := None;
    }
  }

  /** `dialog`: the role chosen so far, the step that handles the next message, and the
      payloads (nil pointers are null). */
  class Dialog {
    var role: Role
    var next: Step
    var volunteer: Volunteer?
    var seeker: Seeker?

    constructor (next: Step)
      ensures role == NoRole && this.next == next && volunteer == null && seeker == null
    {
      role := NoRole;
      this.next := next;
      volunteer := null;
      seeker := null;
    }

    /** What each step dereferences is present: a volunteer step has a volunteer whose
        selection invariant holds, a seeker step a seeker, the locality steps its
        category, and the subscription step its locality as well. */
    ghost predicate Valid()
      reads this, volunteer, seeker, if volunteer != null then {volunteer.categoryKeyboard} else {}
    {
      && (volunteer != null ==> volunteer.Valid())
      && (next.Volunteering() ==> volunteer != null)
      && (next.Seeking() ==> seeker != null)
      && (next.SeekerLocalityText? || next.SeekerLocalityButton? || next.SeekerSubscriptionBtn? ==> seeker.category.Some?)
      && (next.SeekerSubscriptionBtn? ==> seeker.locality.Some?)
    }
  }

  /** A help card as `HelpsByCategoryLocation` lists it (only its identity is modelled). */
  datatype HelpView = HelpView(id: int)

  datatype CreateSubscription = CreateSubscription(creatorID: int, categoryID: int, localityID: int)

  /** The service calls of this snapshot of the handlers, by their results. */
  datatype Backend = Backend(
    helpsCountByUser: int -> Result<int>,
    subscriptionsCountByUser: int -> Result<int>,
    autocompleteLocality: string -> Result<seq<Locality>>,
    helpsByCategoryLocation: (int, int) -> Result<seq<HelpView>>,
    newSubscription: CreateSubscription -> Option<Error>)

  /** `MessageHandler`: the dialog store keyed by chat, the categories loaded at start,
      the localizer and the service. */
  class MessageHandler {
    var dialogs: map<int, Dialog>
    const categories: seq<CategoryTranslated>
    const localize: Localizer
    const service: Backend

    constructor (categories: seq<CategoryTranslated>, localize: Localizer, service: Backend)
      ensures dialogs == map[] && this.categories == categories && this.localize == localize && this.service == service
    {
      dialogs := map[];
      this.categories := categories;
      this.localize := localize;
      this.service := service;
    }

    /** Category ids come from the category table's primary key. */
    ghost predicate Valid()
      reads this
    {
      IdsDistinct(categories)
    }

    /** `dialogs.get`: the chat's dialog, or nil. */
    function Get(chat: int): (d: Dialog?)
      reads this
      ensures d != null <==> chat in dialogs
      ensures d != null ==> d == dialogs[chat]
    {
      if chat in dialogs then dialogs[chat] else null
    }

    /** The chat's dialog, where one exists. */
    function DialogOf(chat: int): Dialog
      reads this
      requires chat in dialogs
    {
      dialogs[chat]
    }

    /** `dialogs.delete`: forget the chat's dialog, keep every other one. */
    method Delete(chat: int)
      modifies this
      ensures dialogs == old(dialogs) - {chat}
      ensures chat !in dialogs && forall c :: c in old(dialogs) && c != chat ==> c in dialogs && dialogs[c] == old(dialogs)[c]
    {
      dialogs := dialogs - {chat};
    }

    /** The label of a button, as the handlers compare and render it. */
    function Label(key: string): string
    {
      Translate.Translate(localize, key, UALang)
    }
  }

  /** The label of a locality button: "Name, RegionName". */
  function FullName(l: Locality): string {
    l.name + ", " + l.regionName
  }

  /** The locality keyboard: one single-button row per candidate, in order. */
  function LocalityRows(ls: seq<Locality>): (rows: seq<seq<string>>)
    ensures |rows| == |ls|
  {
    seq(|ls|, i requires 0 <= i < |ls| => [FullName(ls[i])])
  }

  /** The row loop shared by both locality-text handlers. */
  method LocalityKeyboard(ls: seq<Locality>) returns (rows: seq<seq<string>>)
    ensures rows == LocalityRows(ls)
  {
    rows := [];
    var i := 0;
    while i < |ls|
      invariant 0 <= i <= |ls| && |rows| == i
      invariant forall j :: 0 <= j < i ==> rows[j] == [FullName(ls[j])]
    {
      rows := rows + [[FullName(ls[i])]];
      i := i + 1;
    }
    assert rows == LocalityRows(ls);
  }

  /** The first candidate whose button label equals the text. */
  function FindLocality(ls: seq<Locality>, text: string): (r: Option<nat>)
    ensures r.Some? ==> r.value < |ls| && FullName(ls[r.value]) == text
    ensures r.Some? ==> forall j :: 0 <= j < r.value ==> FullName(ls[j]) != text
    ensures r.None? ==> forall j :: 0 <= j < |ls| ==> FullName(ls[j]) != text
  {
    if ls == [] then None
    else if FullName(ls[0]) == text then Some(0)
    else match FindLocality(ls[1..], text)
      case None => None
      case Some(k) => Some(k + 1)
  }

  /** The button loop of both locality-button handlers: stop at the first exact match. */
  method MatchLocality(ls: seq<Locality>, text: string) returns (r: Option<nat>)
    ensures r == FindLocality(ls, text)
  {
    var i := 0;
    while i < |ls|
      invariant 0 <= i <= |ls|
      invariant forall j :: 0 <= j < i ==> FullName(ls[j]) != text
    {
      if FullName(ls[i]) == text {
        FirstLocality(ls, text, i);
        return Some(i);
      }
      i := i + 1;
    }
    return None;
  }

  /** Any index that matches with no earlier match is the one `FindLocality` picks. */
  lemma {:induction false} FirstLocality(ls: seq<Locality>, text: string, i: nat)
    requires i < |ls| && FullName(ls[i]) == text
    requires forall j :: 0 <= j < i ==> FullName(ls[j]) != text
    ensures FindLocality(ls, text) == Some(i)
  {
    if i > 0 {
      assert FullName(ls[1..][i - 1]) == text;
      FirstLocality(ls[1..], text, i - 1);
    }
  }

  /** The labels of the chosen categories, as the summaries list them. */
  function Texts(cats: seq<Category>): (r: seq<string>)
    ensures |r| == |cats| && forall i :: 0 <= i < |cats| ==> r[i] == cats[i].text
  {
    seq(|cats|, i requires 0 <= i < |cats| => cats[i].text)
  }

  /** The names of the loaded categories, as the seeker keyboard shows them. */
  function Names(categories: seq<CategoryTranslated>): (r: seq<string>)
    ensures |r| == |categories| && forall i :: 0 <= i < |categories| ==> r[i] == categories[i].name
  {
    seq(|categories|, i requires 0 <= i < |categories| => categories[i].name)
  }
}
