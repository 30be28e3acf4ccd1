/** The volunteer dialog of internal/bot/volunteer.go: role reply, category checkboxes,
    locality search and choice, and the description that files the help offer.
    Every handler is a transition of the chat's dialog; the outcome of each `Api.Send`
    and of each service call is an input. */
module VolunteerFlow {
  import opened Wrappers
  import opened Checkbox
  import opened Translate
  import opened Transport
  import opened Handle
  import opened Session

  /** `maxHelpsPerUser` */
  const MaxHelpsPerUser := 2

  /** The help the description step files in the background (`service.NewHelp`). */
  datatype NewHelpRequest = NewHelpRequest(creatorID: int, categoryIDs: seq<int>, localityID: int, description: string)

  /** The ids of the selection, in selection order. */
  function Uids(cats: seq<Category>): (r: seq<int>)
    ensures |r| == |cats| && forall i :: 0 <= i < |cats| ==> r[i] == cats[i].uid
  {
    seq(|cats|, i requires 0 <= i < |cats| => cats[i].uid)
  }

  /** The id loop of the background NewHelp call. */
  method CategoryIDs(cats: seq<Category>) returns (cids: seq<int>)
    ensures cids == Uids(cats)
  {
    cids := [];
    var i := 0;
    while i < |cats|
      invariant 0 <= i <= |cats| && cids == Uids(cats[..i])
    {
      cids := cids + [cats[i].uid];
      i := i + 1;
    }
    assert cats[..i] == cats;
  }

  /** `handleVolunteerUserRoleReply`: without a user id or a count the handler fails
      and changes nothing; at the quota the session is deleted and the limit sent;
      otherwise the dialog gets role volunteer and a fresh volunteer with one unticked
      box per category, and moves to the checkbox step only if the prompt was sent. */
  method VolunteerUserRoleReply(m: MessageHandler, u: Update, sendOk: bool) returns (err: bool, sent: seq<Outgoing>)
    requires m.Valid()
    requires ChatID(u).Some? && ChatID(u).value in m.dialogs && m.dialogs[ChatID(u).value].Valid()
    modifies m, m.dialogs[ChatID(u).value]
    ensures var chat := ChatID(u).value;
            var d := old(m.dialogs[chat]);
            var count := if UserID(u).Some? then m.service.helpsCountByUser(UserID(u).value) else Err(Failure);
            && (count.Err? ==> err && sent == [] && m.dialogs == old(m.dialogs) && unchanged(d))
            && (count.Ok? && count.value >= MaxHelpsPerUser ==>
                  && m.dialogs == old(m.dialogs) - {chat} && unchanged(d)
                  && sent == [Outgoing(chat, Limit(ErrorHelpsLimitExceededTr, MaxHelpsPerUser), HideKeyboard)]
                  && err == !sendOk)
            && (count.Ok? && count.value < MaxHelpsPerUser ==>
                  && m.dialogs == old(m.dialogs)
                  && d.role == RoleVolunteer && d.seeker == old(d.seeker)
                  && d.volunteer != null && fresh(d.volunteer) && fresh(d.volunteer.categoryKeyboard)
                  && d.volunteer.categories == [] && d.volunteer.categoryKeyboard[..] == Unchecked(m.categories)
                  && d.volunteer.localities == [] && d.volunteer.description == ""
                  && d.volunteer.locality == ZeroLocality
                  && d.next == (if sendOk then VolunteerCategoryCheckbox else old(d.next))
                  && sent == [Outgoing(chat, Prompt(VolunteerSelectCategoriesRequestTr),
                                       ReplyKeyboard(Layout(Unchecked(m.categories), "")))]
                  && err == !sendOk
                  && d.Valid())
  {
    var chat := ChatID(u).value;
    var uid := UserID(u);
    if uid.None? {
      return true, [];
    }
    var count := m.service.helpsCountByUser(uid.value);
    if count.Err? {
      return true, [];
    }
    if count.value >= MaxHelpsPerUser {
      m.Delete(chat);
      sent := [Outgoing(chat, Limit(ErrorHelpsLimitExceededTr, MaxHelpsPerUser), HideKeyboard)];
      return !sendOk, sent;
    }
    var d := m.Get(chat);
    d.role := RoleVolunteer;
    var v := new Volunteer();
    var kb := NewCheckboxKeyboard(m.categories);
    v.categoryKeyboard := kb;
    d.volunteer := v;
    InitialSelection(m.categories);
    var layout := CategoryKeyboardLayout(kb, "");
    sent := [Outgoing(chat, Prompt(VolunteerSelectCategoriesRequestTr), ReplyKeyboard(layout))];
    if !sendOk {
      return true, sent;
    }
    d.next := VolunteerCategoryCheckbox;
    return false, sent;
  }

  /** `handleVolunteerCategoryCheckboxReply`: "next" with a selection moves to the
      locality step whatever the send does; any other text toggles the first matching
      box (or, matching none, only prompts), and the reply lists the selection with the
      "next" row offered only when the selection is non-empty. */
  method VolunteerCategoryCheckboxReply(m: MessageHandler, u: Update, sendOk: bool) returns (err: bool, sent: seq<Outgoing>)
    requires u.message.Some? && ChatID(u).Some? && ChatID(u).value in m.dialogs
    requires m.dialogs[ChatID(u).value].Valid() && m.dialogs[ChatID(u).value].volunteer != null
    modifies m.DialogOf(ChatID(u).value)`next, m.DialogOf(ChatID(u).value).volunteer`categories
    modifies m.dialogs[ChatID(u).value].volunteer.categoryKeyboard
    ensures var chat := ChatID(u).value;
            var d := m.dialogs[chat];
            var v := d.volunteer;
            var text := u.message.value.text;
            var nextLabel := m.Label(BtnOptionNextTr);
            && d.Valid()
            && (text == nextLabel && |old(v.categories)| > 0 ==>
                  && d.next == VolunteerLocalityText
                  && v.categories == old(v.categories) && v.categoryKeyboard[..] == old(v.categoryKeyboard[..])
                  && sent == [Outgoing(chat, Prompt(UserLocalityRequestTr), HideKeyboard)]
                  && err == !sendOk)
            && (!(text == nextLabel && |old(v.categories)| > 0) ==>
                  var r := Toggle(old(v.categoryKeyboard[..]), old(v.categories), text);
                  && d.next == old(d.next)
                  && v.categoryKeyboard[..] == r.boxes && v.categories == r.cats
                  && sent == [if !r.ok then Outgoing(chat, Prompt(ErrorChooseOptionTr), NoMarkup)
                              else Outgoing(chat,
                                            if |r.cats| > 0 then ChosenCategories(Texts(r.cats)) else Prompt(ErrorChooseOptionTr),
                                            ReplyKeyboard(Layout(r.boxes, if |r.cats| > 0 then nextLabel else "")))]
                  && err == !sendOk)
  {
    var chat := ChatID(u).value;
    var d := m.Get(chat);
    var v := d.volunteer;
    var text := u.message.value.text;
    var nextBtnText := m.Label(BtnOptionNextTr);
    if text == nextBtnText && |v.categories| > 0 {
      sent := [Outgoing(chat, Prompt(UserLocalityRequestTr), HideKeyboard)];
      d.next := VolunteerLocalityText;
      return !sendOk, sent;
    }
    ToggleKeepsInv(v.categoryKeyboard[..], v.categories, text);
    var uid, ok, cats, panicked := InvertCategoryButton(v.categoryKeyboard, v.categories, text);
    v.categories := cats;
    if !ok {
      sent := [Outgoing(chat, Prompt(ErrorChooseOptionTr), NoMarkup)];
      return !sendOk, sent;
    }
    var body := if |v.categories| != 0 then ChosenCategories(Texts(v.categories)) else Prompt(ErrorChooseOptionTr);
    var nextbtn := if |v.categories| > 0 then nextBtnText else "";
    var layout := CategoryKeyboardLayout(v.categoryKeyboard, nextbtn);
    sent := [Outgoing(chat, body, ReplyKeyboard(layout))];
    return !sendOk, sent;
  }

  /** The outcome of the volunteer's locality search on the service's answer `res`:
      an error changes nothing and sends nothing, no match asks again, and candidates
      are offered as buttons and stored, with the step advanced, only once sent. */
  predicate LocalityTextOutcome(chat: int, res: Result<seq<Locality>>, sendOk: bool, err: bool, sent: seq<Outgoing>,
                                next0: Step, ls0: seq<Locality>, next1: Step, ls1: seq<Locality>)
  {
    match res
    case Err(_) => err && sent == [] && next1 == next0 && ls1 == ls0
    case Ok(ls) =>
      if ls == [] then
        sent == [Outgoing(chat, Prompt(ErrorPleaseTryAgainTr), HideKeyboard)] && err == !sendOk &&
        next1 == next0 && ls1 == ls0
      else
        sent == [Outgoing(chat, Prompt(UserLocalityReplyTr), ReplyKeyboard(LocalityRows(ls)))] && err == !sendOk &&
        (if sendOk then next1 == VolunteerLocalityButton && ls1 == ls else next1 == next0 && ls1 == ls0)
  }

  /** `handleVolunteerLocalityTextReply`; `normalize` stands for `strings.Title(strings.ToLower(·))`. */
  method VolunteerLocalityTextReply(m: MessageHandler, u: Update, normalize: string -> string, sendOk: bool)
    returns (err: bool, sent: seq<Outgoing>)
    requires u.message.Some? && ChatID(u).Some? && ChatID(u).value in m.dialogs
    requires m.dialogs[ChatID(u).value].Valid() && m.dialogs[ChatID(u).value].volunteer != null
    modifies m.DialogOf(ChatID(u).value)`next, m.DialogOf(ChatID(u).value).volunteer`localities
    ensures var d := m.dialogs[ChatID(u).value];
            && d.Valid()
            && LocalityTextOutcome(ChatID(u).value, m.service.autocompleteLocality(normalize(u.message.value.text)),
                                   sendOk, err, sent, old(d.next), old(d.volunteer.localities), d.next, d.volunteer.localities)
  {
    var chat := ChatID(u).value;
    var res := m.service.autocompleteLocality(normalize(u.message.value.text));
    if res.Err? {
      return true, [];
    }
    var localities := res.value;
    if |localities| == 0 {
      sent := [Outgoing(chat, Prompt(ErrorPleaseTryAgainTr), HideKeyboard)];
      return !sendOk, sent;
    }
    var keyboardButtons := LocalityKeyboard(localities);
    sent := [Outgoing(chat, Prompt(UserLocalityReplyTr), ReplyKeyboard(keyboardButtons))];
    if !sendOk {
      return true, sent;
    }
    var d := m.Get(chat);
    d.volunteer.localities := localities;
    d.next := VolunteerLocalityButton;
    return false, sent;
  }

  /** `handleVolunteerLocalityButtonReply`: the first candidate whose label equals the text
      becomes the locality and the dialog asks for the description; no match reruns the
      locality search on the text. */
  method VolunteerLocalityButtonReply(m: MessageHandler, u: Update, normalize: string -> string, sendOk: bool)
    returns (err: bool, sent: seq<Outgoing>)
    requires u.message.Some? && ChatID(u).Some? && ChatID(u).value in m.dialogs
    requires m.dialogs[ChatID(u).value].Valid() && m.dialogs[ChatID(u).value].volunteer != null
    modifies m.DialogOf(ChatID(u).value)`next, m.DialogOf(ChatID(u).value).volunteer`localities
    modifies m.DialogOf(ChatID(u).value).volunteer`locality
    ensures var chat := ChatID(u).value;
            var d := m.dialogs[chat];
            var found := FindLocality(old(d.volunteer.localities), u.message.value.text);
            && d.Valid()
            && (found.Some? ==>
                  && d.volunteer.locality == old(d.volunteer.localities)[found.value]
                  && d.next == VolunteerDescription && d.volunteer.localities == old(d.volunteer.localities)
                  && sent == [Outgoing(chat, Prompt(VolunteerEnterDescriptionRequestTr), HideKeyboard)]
                  && err == !sendOk)
            && (found.None? ==>
                  && d.volunteer.locality == old(d.volunteer.locality)
                  && LocalityTextOutcome(chat, m.service.autocompleteLocality(normalize(u.message.value.text)),
                                         sendOk, err, sent, old(d.next), old(d.volunteer.localities), d.next, d.volunteer.localities))
  {
    var chat := ChatID(u).value;
    var d := m.Get(chat);
    var found := MatchLocality(d.volunteer.localities, u.message.value.text);
    if found.Some? {
      d.volunteer.locality := d.volunteer.localities[found.value];
      d.next := VolunteerDescription;
      sent := [Outgoing(chat, Prompt(VolunteerEnterDescriptionRequestTr), HideKeyboard)];
      return !sendOk, sent;
    }
    err, sent := VolunteerLocalityTextReply(m, u, normalize, sendOk);
  }

  /** `handleVolunteerDescriptionTextReply`: the description is stored first; without a
      user id the handler fails and the session stays; otherwise the help is filed with
      the selection's ids in selection order, the session is deleted and the summary sent.
      `created` is the background NewHelp call. */
  method VolunteerDescriptionTextReply(m: MessageHandler, u: Update, sendOk: bool)
    returns (err: bool, sent: seq<Outgoing>, created: Option<NewHelpRequest>)
    requires u.message.Some? && ChatID(u).Some? && ChatID(u).value in m.dialogs
    requires m.dialogs[ChatID(u).value].Valid() && m.dialogs[ChatID(u).value].volunteer != null
    modifies m, m.DialogOf(ChatID(u).value).volunteer`description
    ensures var chat := ChatID(u).value;
            var v := old(m.dialogs[chat].volunteer);
            var text := u.message.value.text;
            && v.description == text
            && (UserID(u).None? ==> err && sent == [] && created.None? && m.dialogs == old(m.dialogs))
            && (UserID(u).Some? ==>
                  && created == Some(NewHelpRequest(UserID(u).value, Uids(v.categories), v.locality.id, text))
                  && m.dialogs == old(m.dialogs) - {chat}
                  && sent == [Outgoing(chat, Summary(v.locality.name, v.locality.regionName, Texts(v.categories), text), NoMarkup)]
                  && err == !sendOk)
  {
    var chat := ChatID(u).value;
    var d := m.Get(chat);
    var v := d.volunteer;
    v.description := u.message.value.text;
    var summary := Summary(v.locality.name, v.locality.regionName, Texts(v.categories), v.description);
    var uid := UserID(u);
    if uid.None? {
      return true, [], None;
    }
    var cids := CategoryIDs(v.categories);
    created := Some(NewHelpRequest(uid.value, cids, v.locality.id, v.description));
    m.Delete(chat);
    sent := [Outgoing(chat, summary, NoMarkup)];
    return !sendOk, sent, created;
  }
}
