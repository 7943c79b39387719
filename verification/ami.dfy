/** The text of the `CheckFreeze` manager action's reply, shared by the two
    versions that register that action: a `Response` line saying whether the
    check passed, then, when the request carried one, an `ActionID` line
    echoing the request's identifier. */
module Ami {

  import opened Basics

  /** `AMI_SUCCESS`: the action handler's own return value. */
  const AmiSuccess: int := 0

  const SuccessLine := "Response: Success\r\n"
  const FailLine := "Response: Fail\r\n"
  const IdPrefix := "ActionID: "
  const Eol := "\r\n"

  /** What the reply says: whether the check passed, and the identifier
      echoed (empty when the request had none). */
  datatype Response = Response(success: bool, actionId: string)

  /** The action's reply text and the handler's return value. */
  datatype ActionReply = ActionReply(text: string, ret: int)

  /** The reply text for a check outcome and the request's `ActionID` header
      (empty when absent). */
  function Render(success: bool, actionId: string): (text: string)
    ensures success ==> |text| >= |SuccessLine| && text[..|SuccessLine|] == SuccessLine
    ensures !success ==> |text| >= |FailLine| && text[..|FailLine|] == FailLine
    // an ActionID line follows exactly when the request carried an identifier
    ensures actionId == "" <==> text == SuccessLine || text == FailLine
  {
    (if success then SuccessLine else FailLine)
      + (if actionId == "" then "" else IdPrefix + actionId + Eol)
  }

  /** Read the identifier back from what follows the Response line. */
  function ParseIdLine(rest: string): Option<string>
  {
    if rest == "" then Some("")
    // an ActionID line is only ever written for a non-empty identifier
    else if |rest| > |IdPrefix| + |Eol|
            && rest[..|IdPrefix|] == IdPrefix
            && rest[|rest| - |Eol|..] == Eol
    then Some(rest[|IdPrefix|..|rest| - |Eol|])
    else None
  }

  /** Read a reply text back: the Response line, then the optional ActionID line. */
  function Parse(text: string): Option<Response>
  {
    if |text| >= |SuccessLine| && text[..|SuccessLine|] == SuccessLine then
      match ParseIdLine(text[|SuccessLine|..])
      case Some(id) => Some(Response(true, id))
      case None => None
    else if |text| >= |FailLine| && text[..|FailLine|] == FailLine then
      match ParseIdLine(text[|FailLine|..])
      case Some(id) => Some(Response(false, id))
      case None => None
    else None
  }

  /** The reply says exactly the check outcome and echoes the identifier
      verbatim, whatever characters it holds. */
  lemma ParseRender(success: bool, actionId: string)
    ensures Parse(Render(success, actionId)) == Some(Response(success, actionId))
  {
    var line := if success then SuccessLine else FailLine;
    var rest := if actionId == "" then "" else IdPrefix + actionId + Eol;
    var text := Render(success, actionId);
    assert text == line + rest;
    assert text[..|line|] == line;
    assert text[|line|..] == rest;
    if actionId != "" {
      assert rest[..|IdPrefix|] == IdPrefix;
      assert rest[|rest| - |Eol|..] == Eol;
      assert rest[|IdPrefix|..|rest| - |Eol|] == actionId;
    }
    if !success && |text| >= |SuccessLine| {
      // the two Response lines differ at their eleventh character
      assert text[..|SuccessLine|][10] == 'F' != SuccessLine[10];
    }
  }

  /** An ActionID line with nothing after the prefix is not a reply this
      action writes: the reader rejects it rather than take it for the
      absence of an identifier. */
  lemma EmptyIdLineRejected(success: bool)
    ensures Parse((if success then SuccessLine else FailLine) + IdPrefix + Eol) == None
  {
    var line := if success then SuccessLine else FailLine;
    var text := line + IdPrefix + Eol;
    assert text[..|line|] == line && text[|line|..] == IdPrefix + Eol;
    if !success {
      // the two Response lines differ at their eleventh character
      assert text[..|SuccessLine|][10] == 'F' != SuccessLine[10];
    }
  }

  /** Different outcomes or identifiers give different replies. */
  lemma RenderIsInjective(s1: bool, id1: string, s2: bool, id2: string)
    requires Render(s1, id1) == Render(s2, id2)
    ensures s1 == s2 && id1 == id2
  {
    ParseRender(s1, id1);
    ParseRender(s2, id2);
  }
}
