/**
 * The login form: the display name is the part of the e-mail before its
 * first '@'; the password is never looked at.
 */
module LoginForm {
  import opened Wrappers
  import opened Text
  import opened Types
  import opened Auth
  import Reviews

  /** `email.split('@')[0]` */
  function NameFromEmail(email: string): (name: string)
    ensures '@' !in email ==> name == email
    ensures '@' in email ==> exists i :: 0 <= i < |email| && email[i] == '@' && name == email[..i] && '@' !in email[..i]
    ensures '@' !in name
  {
    SplitHead(email, '@');
    Split(email, '@')[0]
  }

  /** "ana@mail.com" gives the name "ana". */
  lemma NameFromEmailExample()
    ensures NameFromEmail("ana@mail.com") == "ana"
  {
    var e := "ana@mail.com";
    assert e == "ana" + "@mail.com";
    assert e[3] == '@' && '@' !in e[..3];
    assert e[..3] == "ana";
  }

  /**
   * `handleSubmit`: log in with the derived name and the exact e-mail, then
   * ask the page to close the modal; the avatar is a function of the name
   * alone (its URL encoding is not modelled).
   */
  method Submit(session: Session, email: string, password: string, avatarFor: string -> string)
    returns (actions: seq<Reviews.Action>)
    modifies session
    ensures actions == [Reviews.CloseWindow]
    ensures session.user == Some(NewUser(NameFromEmail(email), email, avatarFor(NameFromEmail(email))))
    ensures session.storage == Persist(old(session.storage), session.user)
    ensures session.Valid()
  {
    var name := NameFromEmail(email);
    session.Login(name, email, avatarFor(name));
    actions := [Reviews.CloseWindow];
  }
}
