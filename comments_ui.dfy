/**
 * The comment section of src/components/features/post/Comments.tsx: the
 * new-comment form (`Comments`) and one comment's edit and delete controls
 * (`CommentItem`).
 *
 * Each request's outcome is a parameter: an OK response, a failed
 * response with the `error` field of its body (None when absent), or a
 * thrown fetch. The form reset, the refetch and the 3-second message
 * timer are reported by the handlers rather than performed.
 */
module CommentsUi {
  import opened Wrappers
  import opened CommentDb

  /** What a request came back with. */
  datatype Reply = Ok | NotOk(error: Option<string>) | Thrown

  /** The three inputs of the form. */
  datatype Field = Username | Password | Content

  datatype MessageKind = SuccessMessage | ErrorMessage
  datatype FormMessage = FormMessage(kind: MessageKind, text: string)

  /** What a handler did: nothing sent, or one request sent and whether the list is refetched. */
  datatype Effect = NoRequest | Sent(refresh: bool)

  const NeedUsername := "닉네임을 입력해주세요."
  const NeedPassword := "비밀번호를 입력해주세요."
  const NeedContent := "내용을 입력해주세요."
  const Created := "댓글이 성공적으로 작성되었습니다."
  const CreateFailedPrefix := "댓글 작성 실패: "
  const CreateError := "댓글 작성 중 오류가 발생했습니다."
  const PasswordMismatch := "비밀번호가 일치하지 않습니다."
  const NotFound := "댓글을 찾을 수 없습니다."
  const GenericError := "오류가 발생했습니다."
  const DeleteError := "삭제 중 오류가 발생했습니다."
  const UpdateError := "수정 중 오류가 발생했습니다."

  /** The characters `String.prototype.trim` removes. */
  predicate IsWhitespace(c: char) {
    var n := c as int;
    n == 9 || n == 10 || n == 11 || n == 12 || n == 13 || n == 32 || n == 160 || n == 5760
    || (8192 <= n <= 8202) || n == 8232 || n == 8233 || n == 8239 || n == 8287 || n == 12288 || n == 65279
  }

  /** `s.trimStart()`: the leading whitespace removed. */
  function TrimStart(s: string): (r: string)
    ensures r == "" <==> forall i :: 0 <= i < |s| ==> IsWhitespace(s[i])
    ensures r != "" ==> !IsWhitespace(r[0])
  {
    if s != "" && IsWhitespace(s[0]) then
      var r := TrimStart(s[1..]);
      assert (forall i :: 0 <= i < |s[1..]| ==> IsWhitespace(s[1..][i])) ==> forall i :: 0 <= i < |s| ==> IsWhitespace(s[i]) by {
        forall i | 0 <= i < |s| && (forall j :: 0 <= j < |s[1..]| ==> IsWhitespace(s[1..][j]))
          ensures IsWhitespace(s[i])
        {
          if i > 0 {
            assert s[i] == s[1..][i - 1];
          }
        }
      }
      r
    else s
  }

  /** `s.trimEnd()`: the trailing whitespace removed. */
  function TrimEnd(s: string): (r: string)
    ensures r == "" <==> forall i :: 0 <= i < |s| ==> IsWhitespace(s[i])
    ensures |r| <= |s| && r == s[..|r|]
  {
    if s != "" && IsWhitespace(s[|s| - 1]) then
      var front := s[..|s| - 1];
      var r := TrimEnd(front);
      assert (forall i :: 0 <= i < |front| ==> IsWhitespace(front[i])) ==> forall i :: 0 <= i < |s| ==> IsWhitespace(s[i]) by {
        forall i | 0 <= i < |s| && (forall j :: 0 <= j < |front| ==> IsWhitespace(front[j]))
          ensures IsWhitespace(s[i])
        {
          if i < |front| {
            assert s[i] == front[i];
          }
        }
      }
      r
    else s
  }

  /** `s.trim()`: both ends' whitespace removed. */
  function Trim(s: string): string {
    TrimEnd(TrimStart(s))
  }

  /** `!s.trim()`: the trimmed string is empty, exactly when `s` is nothing but whitespace. */
  function IsBlank(s: string): (r: bool)
    ensures r <==> forall i :: 0 <= i < |s| ==> IsWhitespace(s[i])
  {
    var t := TrimStart(s);
    assert t != "" ==> TrimEnd(t) != "" by {
      if t != "" {
        assert !IsWhitespace(t[0]);
      }
    }
    Trim(s) == ""
  }

  /** A value as a template literal shows it: an absent field reads 'undefined'. */
  function Shown(v: Option<string>): string {
    if v.Some? then v.value else "undefined"
  }

  /** The errors `handleSubmit` collects: one per blank field, and only those. */
  function SubmitErrors(username: string, password: string, content: string): (errors: map<Field, string>)
    ensures Username in errors <==> IsBlank(username)
    ensures Password in errors <==> IsBlank(password)
    ensures Content in errors <==> IsBlank(content)
    ensures Username in errors ==> errors[Username] == NeedUsername
    ensures Password in errors ==> errors[Password] == NeedPassword
    ensures Content in errors ==> errors[Content] == NeedContent
  {
    var e1: map<Field, string> := if IsBlank(username) then map[Username := NeedUsername] else map[];
    var e2 := if IsBlank(password) then e1[Password := NeedPassword] else e1;
    if IsBlank(content) then e2[Content := NeedContent] else e2
  }

  /** The new-comment form's state. */
  class CommentForm {
    var fieldErrors: map<Field, string>
    var formMessage: Option<FormMessage>
    var comments: seq<PublicComment>
    var isLoading: bool

    constructor ()
      ensures fieldErrors == map[] && formMessage == None && comments == [] && isLoading
    {
      fieldErrors := map[];
      formMessage := None;
      comments := [];
      isLoading := true;
    }

    /** `fetchComments`: the list is replaced by a reply's list; loading ends either way. */
    method FetchComments(reply: Option<seq<PublicComment>>)
      modifies this
      ensures reply.Some? ==> comments == reply.value
      ensures reply.None? ==> comments == old(comments)
      ensures !isLoading && fieldErrors == old(fieldErrors) && formMessage == old(formMessage)
    {
      isLoading := true;
      if reply.Some? {
        comments := reply.value;
      }
      isLoading := false;
    }

    /** `handleInputChange`: typing in a field removes that field's error and no other. */
    method HandleInputChange(name: Field)
      modifies this
      ensures fieldErrors == old(fieldErrors) - {name}
      ensures formMessage == old(formMessage) && comments == old(comments) && isLoading == old(isLoading)
    {
      if name in fieldErrors {
        fieldErrors := fieldErrors - {name};
      }
    }

    /**
     * `handleSubmit`: clears the message and the field errors, then either
     * reports the blank fields and sends nothing, or sends one request and
     * shows its outcome. A created comment refetches the list.
     */
    method HandleSubmit(username: string, password: string, content: string, reply: Reply) returns (effect: Effect)
      modifies this
      ensures var errors := SubmitErrors(username, password, content);
        && (errors != map[] ==> effect == NoRequest && fieldErrors == errors && formMessage == None)
        && (errors == map[] ==> effect.Sent? && fieldErrors == map[])
      ensures effect.Sent? ==>
        && (reply == Ok ==> effect.refresh && formMessage == Some(FormMessage(SuccessMessage, Created)))
        && (reply.NotOk? ==>
              !effect.refresh && formMessage == Some(FormMessage(ErrorMessage, CreateFailedPrefix + Shown(reply.error))))
        && (reply == Thrown ==> !effect.refresh && formMessage == Some(FormMessage(ErrorMessage, CreateError)))
      ensures comments == old(comments) && isLoading == old(isLoading)
    {
      formMessage := None;
      fieldErrors := map[];
      var errors: map<Field, string> := map[];
      if IsBlank(username) {
        errors := errors[Username := NeedUsername];
      }
      if IsBlank(password) {
        errors := errors[Password := NeedPassword];
      }
      if IsBlank(content) {
        errors := errors[Content := NeedContent];
      }
      if |errors| > 0 {
        fieldErrors := errors;
        return NoRequest;
      }
      assert errors == map[];
      match reply
      case Ok =>
        formMessage := Some(FormMessage(SuccessMessage, Created));
        effect := Sent(true);
      case NotOk(error) =>
        formMessage := Some(FormMessage(ErrorMessage, CreateFailedPrefix + Shown(error)));
        effect := Sent(false);
      case Thrown =>
        formMessage := Some(FormMessage(ErrorMessage, CreateError));
        effect := Sent(false);
    }
  }

  /** `getErrorMessage`: the message for a server error code. */
  function ErrorMessageFor(code: Option<string>): (m: string)
    ensures code == Some("Incorrect password") ==> m == PasswordMismatch
    ensures code == Some("Comment not found") ==> m == NotFound
    ensures code != Some("Incorrect password") && code != Some("Comment not found") ==> m == GenericError
  {
    if code == Some("Incorrect password") then PasswordMismatch
    else if code == Some("Comment not found") then NotFound
    else GenericError
  }

  /** The store's two rejections reach the reader as their own messages. */
  lemma RejectionMessages(v: Verification)
    requires v == Rejected("Incorrect password", 401) || v == Rejected("Comment not found", 404)
    ensures ErrorMessageFor(Some(v.error)) == (if v.status == 401 then PasswordMismatch else NotFound)
  {
  }

  /** One comment's controls: view, edit or delete mode. */
  class CommentItem {
    var isEditing: bool
    var isDeleting: bool
    var editContent: string
    var password: string
    var error: Option<string>

    /** Never both modes at once. */
    predicate Valid()
      reads this
    {
      !(isEditing && isDeleting)
    }

    constructor (content: string)
      ensures Valid() && !isEditing && !isDeleting
      ensures editContent == content && password == "" && error == None
    {
      isEditing := false;
      isDeleting := false;
      editContent := content;
      password := "";
      error := None;
    }

    /** The edit and delete buttons show only outside both modes. */
    function ShowButtons(): (r: bool)
      reads this
      ensures r <==> !isEditing && !isDeleting
    {
      !isEditing && !isDeleting
    }

    /** The edit button: edit mode, out of delete mode, password and error cleared. */
    method StartEdit()
      modifies this
      ensures Valid() && isEditing && !isDeleting && password == "" && error == None
      ensures editContent == old(editContent)
      ensures !ShowButtons()
    {
      isEditing := true;
      isDeleting := false;
      password := "";
      error := None;
    }

    /** The delete button: delete mode, out of edit mode, password and error cleared. */
    method StartDelete()
      modifies this
      ensures Valid() && isDeleting && !isEditing && password == "" && error == None
      ensures editContent == old(editContent)
      ensures !ShowButtons()
    {
      isDeleting := true;
      isEditing := false;
      password := "";
      error := None;
    }

    /** The cancel buttons leave their mode and nothing else changes. */
    method CancelEdit()
      requires Valid()
      modifies this
      ensures Valid() && !isEditing && isDeleting == old(isDeleting)
      ensures password == old(password) && error == old(error) && editContent == old(editContent)
      ensures !old(isDeleting) ==> ShowButtons()
    {
      isEditing := false;
    }

    method CancelDelete()
      requires Valid()
      modifies this
      ensures Valid() && !isDeleting && isEditing == old(isEditing)
      ensures password == old(password) && error == old(error) && editContent == old(editContent)
      ensures !old(isEditing) ==> ShowButtons()
    {
      isDeleting := false;
    }

    /** Typing a password clears the error. */
    method SetPassword(p: string)
      requires Valid()
      modifies this
      ensures Valid() && password == p && error == None
      ensures isEditing == old(isEditing) && isDeleting == old(isDeleting) && editContent == old(editContent)
    {
      password := p;
      error := None;
    }

    method SetEditContent(c: string)
      requires Valid()
      modifies this
      ensures Valid() && editContent == c
      ensures isEditing == old(isEditing) && isDeleting == old(isDeleting)
      ensures password == old(password) && error == old(error)
    {
      editContent := c;
    }

    /**
     * `handleDelete`: an empty password is refused without a request;
     * otherwise a success refetches the list and a failure shows its
     * message.
     */
    method HandleDelete(reply: Reply) returns (effect: Effect)
      requires Valid()
      modifies this
      ensures Valid()
      ensures old(password) == "" ==> effect == NoRequest && error == Some(NeedPassword)
      ensures old(password) != "" ==> effect.Sent?
      ensures effect.Sent? ==>
        && (reply == Ok ==> effect.refresh && error == None)
        && (reply.NotOk? ==> !effect.refresh && error == Some(ErrorMessageFor(reply.error)))
        && (reply == Thrown ==> !effect.refresh && error == Some(DeleteError))
      ensures isEditing == old(isEditing) && isDeleting == old(isDeleting)
      ensures password == old(password) && editContent == old(editContent)
    {
      error := None;
      if password == "" {
        error := Some(NeedPassword);
        return NoRequest;
      }
      match reply
      case Ok =>
        effect := Sent(true);
      case NotOk(code) =>
        error := Some(ErrorMessageFor(code));
        effect := Sent(false);
      case Thrown =>
        error := Some(DeleteError);
        effect := Sent(false);
    }

    /**
     * `handleUpdate`: blank content is refused before the password is
     * looked at; a success leaves edit mode, clears the password and
     * refetches; a failure shows its message and stays in edit mode.
     */
    method HandleUpdate(reply: Reply) returns (effect: Effect)
      requires Valid()
      modifies this
      ensures Valid()
      ensures IsBlank(old(editContent)) ==> effect == NoRequest && error == Some(NeedContent)
      ensures !IsBlank(old(editContent)) && old(password) == "" ==> effect == NoRequest && error == Some(NeedPassword)
      ensures effect == NoRequest ==> isEditing == old(isEditing) && password == old(password)
      ensures !IsBlank(old(editContent)) && old(password) != "" ==> effect.Sent?
      ensures effect.Sent? ==>
        && (reply == Ok ==> effect.refresh && error == None && !isEditing && password == "")
        && (reply.NotOk? ==>
              !effect.refresh && error == Some(ErrorMessageFor(reply.error)) && isEditing == old(isEditing) && password == old(password))
        && (reply == Thrown ==>
              !effect.refresh && error == Some(UpdateError) && isEditing == old(isEditing) && password == old(password))
      ensures isDeleting == old(isDeleting) && editContent == old(editContent)
    {
      error := None;
      if IsBlank(editContent) {
        error := Some(NeedContent);
        return NoRequest;
      }
      if password == "" {
        error := Some(NeedPassword);
        return NoRequest;
      }
      match reply
      case Ok =>
        isEditing := false;
        password := "";
        effect := Sent(true);
      case NotOk(code) =>
        error := Some(ErrorMessageFor(code));
        effect := Sent(false);
      case Thrown =>
        error := Some(UpdateError);
        effect := Sent(false);
    }
  }

  /**
   * Opening either mode from the plain view and cancelling it brings the
   * edit and delete buttons back, with the edited content unchanged.
   */
  method ModeThenCancel(item: CommentItem, delete: bool)
    requires item.Valid() && item.ShowButtons()
    modifies item
    ensures item.ShowButtons() && item.editContent == old(item.editContent)
  {
    if delete {
      item.StartDelete();
      item.CancelDelete();
    } else {
      item.StartEdit();
      item.CancelEdit();
    }
  }
}
