/**
 * The `srfax` client class: argument checks and request building for every
 * public operation, and the shared call routine that adds the credentials,
 * hands the request to the transport and interprets the reply.
 */
module SrFax {
  import opened Wrappers
  import opened Php
  import opened Api

  const DefaultUrl := "https://www.srfax.com/SRF_SecWebSvc.php"

  /** The keys the call routine writes last, so no caller value survives under them. */
  const CredentialKeys: set<string> := {"access_id", "access_pwd", "sResponseFormat"}

  /** `_set_options`: the caller's options (when there are any) with `action` set to the operation. */
  function SetOptions(action: string, options: Params): (p: Params)
    ensures p.Keys == options.Keys + {"action"}
    ensures p["action"] == action
    ensures forall k :: k in options && k != "action" ==> p[k] == options[k]
  {
    var base := if options != map[] then options else map[];
    base["action" := action]
  }

  /**
   * The recipient test of Queue_Fax: long enough to send, or ten characters to
   * be prefixed with "1". Together that is "ten characters or more"; shorter
   * recipients, empty ones included, fail.
   */
  predicate RecipientAccepted(to: string)
    ensures RecipientAccepted(to) <==> |to| >= 10
  {
    !(IsEmpty(to) || |to| < 11) || |to| == 10
  }

  /**
   * The sender fax test of Queue_Fax, applied to the argument and then to the
   * default. Its `empty` test is subsumed: a numeric string of ten characters
   * is all it asks for.
   */
  predicate SenderFaxAccepted(fax: string)
    ensures SenderFaxAccepted(fax) <==> IsNumeric(fax) && |fax| == 10
  {
    !(IsEmpty(fax) || !IsNumeric(fax) || |fax| != 10)
  }

  /** Ten decimal digits always pass the sender fax test. */
  lemma TenDigitsAccepted(fax: string)
    requires |fax| == 10 && AllDigits(fax)
    ensures SenderFaxAccepted(fax)
  {
  }

  /**
   * The test is "numeric and ten characters long", not "ten digits": a sign
   * or leading white space before nine digits passes too.
   */
  lemma SenderFaxAdmitsNonDigits(digits: string)
    requires |digits| == 9 && AllDigits(digits)
    ensures SenderFaxAccepted("-" + digits)
    ensures SenderFaxAccepted("+" + digits)
    ensures SenderFaxAccepted(" " + digits)
  {
    SignedDigitsAreNumeric('-', digits);
    SignedDigitsAreNumeric('+', digits);
    SpacedDigitsAreNumeric(' ', digits);
  }

  /** A ten-character number written with a dash after its leading digits is refused. */
  lemma SenderFaxRefusesDash(fax: string, k: nat)
    requires |fax| == 10 && 0 < k < 10
    requires forall i :: 0 <= i < k ==> IsDigit(fax[i])
    requires fax[k] == '-'
    ensures !SenderFaxAccepted(fax)
  {
  }

  predicate IsFaxType(t: string) { t == "SINGLE" || t == "BROADCAST" }

  predicate IsDirection(d: string) { d == "IN" || d == "OUT" }

  predicate IsViewedFlag(v: string) { v == "Y" || v == "N" }

  /** A fax type passes exactly when it spells SINGLE or BROADCAST in any case. */
  lemma FaxTypeIgnoresCase(t: string)
    ensures IsFaxType(Upper(t)) <==> EqualsIgnoringCase(t, "SINGLE") || EqualsIgnoringCase(t, "BROADCAST")
  {
    UpperMatchesIgnoringCase(t, "SINGLE");
    UpperMatchesIgnoringCase(t, "BROADCAST");
  }

  /** A direction passes exactly when it spells IN or OUT in any case. */
  lemma DirectionIgnoresCase(d: string)
    ensures IsDirection(Upper(d)) <==> EqualsIgnoringCase(d, "IN") || EqualsIgnoringCase(d, "OUT")
  {
    UpperMatchesIgnoringCase(d, "IN");
    UpperMatchesIgnoringCase(d, "OUT");
  }

  /** A viewed flag passes exactly when it is y, Y, n or N. */
  lemma ViewedIgnoresCase(v: string)
    ensures IsViewedFlag(Upper(v)) <==> v == "y" || v == "Y" || v == "n" || v == "N"
  {
  }

  /**
   * The one key that names the fax for Retrieve_Fax, Update_Viewed_Status and
   * Delete_Fax: a non-empty id wins over the file name.
   */
  function DocumentField(id: string, filename: string): (f: Params)
    requires !IsEmpty(id) || !IsEmpty(filename)
    ensures |f| == 1
    ensures "sFaxDetailsID" in f <==> !IsEmpty(id)
    ensures "sFaxDetailsID" in f ==> f["sFaxDetailsID"] == id
    ensures "sFaxFileName" in f <==> IsEmpty(id)
    ensures "sFaxFileName" in f ==> f["sFaxFileName"] == filename && !IsEmpty(filename)
  {
    if !IsEmpty(id) then map["sFaxDetailsID" := id] else map["sFaxFileName" := filename]
  }

  /** Setting four fields one after the other layers them over the base parameters. */
  lemma FourFields(base: Params, v1: string, v2: string, v3: string, v4: string)
    ensures base["sToFaxNumber" := v1]["sCallerID" := v2]["sSenderEmail" := v3]["sFaxType" := v4]
         == base + map["sToFaxNumber" := v1, "sCallerID" := v2, "sSenderEmail" := v3, "sFaxType" := v4]
  {
  }

  /** Setting one more field on layered parameters layers it with the others. */
  lemma OneMoreField(base: Params, fields: Params, k: string, v: string)
    ensures (base + fields)[k := v] == base + fields[k := v]
  {
  }

  /** Setting the document field on layered parameters layers it with the others. */
  lemma DocumentLayered(base: Params, fields: Params, id: string, filename: string)
    requires !IsEmpty(id) || !IsEmpty(filename)
    ensures !IsEmpty(id) ==> (base + fields)["sFaxDetailsID" := id] == base + (fields + DocumentField(id, filename))
    ensures IsEmpty(id) ==> (base + fields)["sFaxFileName" := filename] == base + (fields + DocumentField(id, filename))
  {
    if !IsEmpty(id) {
      OneMoreField(base, fields, "sFaxDetailsID", id);
      assert fields + DocumentField(id, filename) == fields["sFaxDetailsID" := id];
    } else {
      OneMoreField(base, fields, "sFaxFileName", filename);
      assert fields + DocumentField(id, filename) == fields["sFaxFileName" := filename];
    }
  }

  class Client {
    const apiUser: string
    const apiPass: string
    const apiUrl: string
    const defaultSenderFax: string
    const defaultSenderEmail: string

    /** `__construct`: an empty URL selects the service's own endpoint. */
    constructor (apiUser: string, apiPass: string, apiUrl: string, senderFax: string, senderEmail: string)
      ensures this.apiUser == apiUser && this.apiPass == apiPass
      ensures this.apiUrl == if IsEmpty(apiUrl) then DefaultUrl else apiUrl
      ensures !IsEmpty(this.apiUrl)
      ensures defaultSenderFax == senderFax && defaultSenderEmail == senderEmail
    {
      this.apiUser := apiUser;
      this.apiPass := apiPass;
      this.apiUrl := if !IsEmpty(apiUrl) then apiUrl else DefaultUrl;
      defaultSenderFax := senderFax;
      defaultSenderEmail := senderEmail;
    }

    /**
     * `req` is what the call routine sends for `p`: to this client's URL, with
     * `p` under every other key and the credentials and response format
     * overriding whatever `p` held under theirs. That is exactly the request
     * the three assignments of the call routine build from `p`.
     */
    ghost predicate Injects(req: Request, p: Params)
      ensures Injects(req, p) <==>
                req == Request(apiUrl, p["access_id" := apiUser]["access_pwd" := apiPass]["sResponseFormat" := "JSON"])
    {
      && req.url == apiUrl
      && req.params.Keys == p.Keys + CredentialKeys
      && req.params["access_id"] == apiUser
      && req.params["access_pwd"] == apiPass
      && req.params["sResponseFormat"] == "JSON"
      && forall k :: k in p && k !in CredentialKeys ==> req.params[k] == p[k]
    }

    /**
     * `req` is what an operation sends: the caller's options, overridden by
     * the operation's `action`, overridden by the fields the operation sets,
     * overridden by the credentials.
     */
    ghost predicate Carries(req: Request, options: Params, action: string, fields: Params) {
      Injects(req, SetOptions(action, options) + fields)
    }

    /** What a carried request holds under each key. */
    lemma CarriedFields(req: Request, options: Params, action: string, fields: Params)
      requires Carries(req, options, action, fields)
      requires "action" !in fields && fields.Keys !! CredentialKeys
      ensures req.params.Keys == options.Keys + {"action"} + fields.Keys + CredentialKeys
      ensures req.params["action"] == action
      ensures forall k :: k in fields ==> req.params[k] == fields[k]
      ensures forall k :: k in options && k != "action" && k !in fields && k !in CredentialKeys ==>
                req.params[k] == options[k]
    {
    }

    /** `_call`: the credentials are added, the request is sent and the reply interpreted. */
    method Call(params: Params, raw: bool, wire: Wire) returns (r: Result<Json, Error>, sent: Option<Request>)
      ensures params == map[] ==> r == Success(JNull) && sent == None
      ensures params != map[] ==> sent.Some? && Injects(sent.value, params)
      ensures params != map[] ==> r == Interpret(wire.send(sent.value), wire.jsonDecode, raw)
    {
      if params == map[] {
        return Success(JNull), None;
      }
      var payload := params;
      payload := payload["access_id" := apiUser];
      payload := payload["access_pwd" := apiPass];
      payload := payload["sResponseFormat" := "JSON"];
      var request := Request(apiUrl, payload);
      var reply := wire.send(request);
      r := Interpret(reply, wire.jsonDecode, raw);
      sent := Some(request);
    }

    /** `Queue_Fax`. The caller passes "SINGLE" for the source's default fax type. */
    method QueueFax(to: string, options: Params, senderFax: string, senderEmail: string, faxType: string, wire: Wire)
      returns (r: Result<Json, Error>, sent: Option<Request>)
      ensures !RecipientAccepted(to) ==> r == Failure(BadRecipient) && sent == None
      ensures RecipientAccepted(to) && !SenderFaxAccepted(senderFax) && !SenderFaxAccepted(defaultSenderFax) ==>
                r == Failure(BadSenderFax) && sent == None
      ensures RecipientAccepted(to) && (SenderFaxAccepted(senderFax) || SenderFaxAccepted(defaultSenderFax))
                && IsEmpty(senderEmail) && IsEmpty(defaultSenderEmail) ==>
                r == Failure(BadSenderEmail) && sent == None
      ensures RecipientAccepted(to) && (SenderFaxAccepted(senderFax) || SenderFaxAccepted(defaultSenderFax))
                && !(IsEmpty(senderEmail) && IsEmpty(defaultSenderEmail)) && !IsFaxType(Upper(faxType)) ==>
                r == Failure(BadFaxType) && sent == None
      ensures sent.Some? <==>
                && RecipientAccepted(to)
                && (SenderFaxAccepted(senderFax) || SenderFaxAccepted(defaultSenderFax))
                && !(IsEmpty(senderEmail) && IsEmpty(defaultSenderEmail))
                && IsFaxType(Upper(faxType))
      ensures sent.Some? ==>
                && Carries(sent.value, options, "Queue_Fax", map[
                     "sToFaxNumber" := (if |to| == 10 then "1" + to else to),
                     "sCallerID" := (if SenderFaxAccepted(senderFax) then senderFax else defaultSenderFax),
                     "sSenderEmail" := (if IsEmpty(senderEmail) then defaultSenderEmail else senderEmail),
                     "sFaxType" := Upper(faxType)])
                && r == Interpret(wire.send(sent.value), wire.jsonDecode, false)
    {
      var params := SetOptions("Queue_Fax", options);

      var recipient := to;
      if IsEmpty(recipient) || |recipient| < 11 {
        if |recipient| == 10 {
          recipient := "1" + recipient;
        } else {
          return Failure(BadRecipient), None;
        }
      }
      params := params["sToFaxNumber" := recipient];

      var callerId := senderFax;
      if !SenderFaxAccepted(callerId) {
        if !SenderFaxAccepted(defaultSenderFax) {
          return Failure(BadSenderFax), None;
        }
        callerId := defaultSenderFax;
      }
      params := params["sCallerID" := callerId];

      var email := senderEmail;
      if IsEmpty(email) {
        if IsEmpty(defaultSenderEmail) {
          return Failure(BadSenderEmail), None;
        }
        email := defaultSenderEmail;
      }
      params := params["sSenderEmail" := email];

      var kind := Upper(faxType);
      if kind != "SINGLE" && kind != "BROADCAST" {
        return Failure(BadFaxType), None;
      }
      params := params["sFaxType" := kind];

      FourFields(SetOptions("Queue_Fax", options), recipient, callerId, email, kind);
      r, sent := Call(params, false, wire);
    }

    /** `Get_FaxStatus`: a `|` in the id selects the multi-fax query; the id is sent as given. */
    method GetFaxStatus(faxDetailsId: string, wire: Wire) returns (r: Result<Json, Error>, sent: Option<Request>)
      ensures sent.Some?
      ensures "action" in sent.value.params
      ensures sent.value.params["action"] == "Get_MultiFaxStatus" <==> '|' in faxDetailsId
      ensures Carries(sent.value, map[],
                if '|' in faxDetailsId then "Get_MultiFaxStatus" else "Get_FaxStatus",
                map["sFaxDetailsID" := faxDetailsId])
      ensures r == Interpret(wire.send(sent.value), wire.jsonDecode, false)
    {
      var action;
      if '|' !in faxDetailsId {
        action := "Get_FaxStatus";
      } else {
        action := "Get_MultiFaxStatus";
      }
      var params := SetOptions(action, map[]);
      OneMoreField(params, map[], "sFaxDetailsID", faxDetailsId);
      params := params["sFaxDetailsID" := faxDetailsId];
      r, sent := Call(params, false, wire);
    }

    /** `Get_Fax_Usage`: the options are passed through under action Get_Fax_Usage. */
    method GetFaxUsage(options: Params, wire: Wire) returns (r: Result<Json, Error>, sent: Option<Request>)
      ensures sent.Some? && Carries(sent.value, options, "Get_Fax_Usage", map[])
      ensures r == Interpret(wire.send(sent.value), wire.jsonDecode, false)
    {
      var params := SetOptions("Get_Fax_Usage", options);
      r, sent := Call(params, false, wire);
    }

    /** `Get_Fax_Inbox`: the options are passed through under action Get_Fax_Inbox. */
    method GetFaxInbox(options: Params, wire: Wire) returns (r: Result<Json, Error>, sent: Option<Request>)
      ensures sent.Some? && Carries(sent.value, options, "Get_Fax_Inbox", map[])
      ensures r == Interpret(wire.send(sent.value), wire.jsonDecode, false)
    {
      var params := SetOptions("Get_Fax_Inbox", options);
      r, sent := Call(params, false, wire);
    }

    /** `Get_Fax_Outbox`: the options are passed through under action Get_Fax_Outbox. */
    method GetFaxOutbox(options: Params, wire: Wire) returns (r: Result<Json, Error>, sent: Option<Request>)
      ensures sent.Some? && Carries(sent.value, options, "Get_Fax_Outbox", map[])
      ensures r == Interpret(wire.send(sent.value), wire.jsonDecode, false)
    {
      var params := SetOptions("Get_Fax_Outbox", options);
      r, sent := Call(params, false, wire);
    }

    /** `Retrieve_Fax`: the fax's `Result` is handed to `base64_decode`. */
    method RetrieveFax(direction: string, faxDetailsId: string, faxFilename: string, options: Params, wire: Wire)
      returns (r: Result<string, Error>, sent: Option<Request>)
      ensures !IsDirection(Upper(direction)) ==> r == Failure(BadDirection) && sent == None
      ensures IsDirection(Upper(direction)) && IsEmpty(faxDetailsId) && IsEmpty(faxFilename) ==>
                r == Failure(MissingDocument) && sent == None
      ensures sent.Some? <==> IsDirection(Upper(direction)) && !(IsEmpty(faxDetailsId) && IsEmpty(faxFilename))
      ensures sent.Some? ==>
                && Carries(sent.value, options, "Retrieve_Fax",
                     map["sDirection" := Upper(direction)] + DocumentField(faxDetailsId, faxFilename))
                && var reply := Interpret(wire.send(sent.value), wire.jsonDecode, false);
                   && (reply.Failure? ==> r == Failure(reply.error))
                   && (reply.Success? && ScalarString(reply.value).Some? ==>
                         r == Success(wire.base64Decode(ScalarString(reply.value).value)))
                   && (reply.Success? && ScalarString(reply.value).None? ==> r == Failure(NotAString(reply.value)))
    {
      var params := SetOptions("Retrieve_Fax", options);
      ghost var base := params;

      var dir := Upper(direction);
      if dir != "IN" && dir != "OUT" {
        return Failure(BadDirection), None;
      }
      ghost var fields: Params := map[];
      assert params == base + fields;
      OneMoreField(base, fields, "sDirection", dir);
      params := params["sDirection" := dir];
      fields := fields["sDirection" := dir];

      if !IsEmpty(faxDetailsId) {
        DocumentLayered(base, fields, faxDetailsId, faxFilename);
        params := params["sFaxDetailsID" := faxDetailsId];
      } else if !IsEmpty(faxFilename) {
        DocumentLayered(base, fields, faxDetailsId, faxFilename);
        params := params["sFaxFileName" := faxFilename];
      } else {
        return Failure(MissingDocument), None;
      }
      fields := fields + DocumentField(faxDetailsId, faxFilename);

      var reply;
      reply, sent := Call(params, false, wire);
      assert Carries(sent.value, options, "Retrieve_Fax", fields);
      if reply.Failure? {
        return Failure(reply.error), sent;
      }
      var text := ScalarString(reply.value);
      if text.None? {
        return Failure(NotAString(reply.value)), sent;
      }
      r := Success(wire.base64Decode(text.value));
    }

    /** `Update_Viewed_Status`: the direction, then the viewed flag, then the fax are checked. */
    method UpdateViewedStatus(direction: string, viewed: string, faxDetailsId: string, faxFilename: string,
                              options: Params, wire: Wire)
      returns (r: Result<Json, Error>, sent: Option<Request>)
      ensures !IsDirection(Upper(direction)) ==> r == Failure(BadDirection) && sent == None
      ensures IsDirection(Upper(direction)) && !IsViewedFlag(Upper(viewed)) ==>
                r == Failure(BadViewed) && sent == None
      ensures IsDirection(Upper(direction)) && IsViewedFlag(Upper(viewed))
                && IsEmpty(faxDetailsId) && IsEmpty(faxFilename) ==>
                r == Failure(MissingDocument) && sent == None
      ensures sent.Some? <==>
                IsDirection(Upper(direction)) && IsViewedFlag(Upper(viewed))
                && !(IsEmpty(faxDetailsId) && IsEmpty(faxFilename))
      ensures sent.Some? ==>
                && Carries(sent.value, options, "Update_Viewed_Status",
                     map["sDirection" := Upper(direction), "sMarkasViewed" := Upper(viewed)]
                       + DocumentField(faxDetailsId, faxFilename))
                && r == Interpret(wire.send(sent.value), wire.jsonDecode, false)
    {
      var params := SetOptions("Update_Viewed_Status", options);
      ghost var base := params;

      var dir := Upper(direction);
      if dir != "IN" && dir != "OUT" {
        return Failure(BadDirection), None;
      }
      ghost var fields: Params := map[];
      assert params == base + fields;
      OneMoreField(base, fields, "sDirection", dir);
      params := params["sDirection" := dir];
      fields := fields["sDirection" := dir];

      var flag := Upper(viewed);
      if flag != "Y" && flag != "N" {
        return Failure(BadViewed), None;
      }
      OneMoreField(base, fields, "sMarkasViewed", flag);
      params := params["sMarkasViewed" := flag];
      fields := fields["sMarkasViewed" := flag];

      if !IsEmpty(faxDetailsId) {
        DocumentLayered(base, fields, faxDetailsId, faxFilename);
        params := params["sFaxDetailsID" := faxDetailsId];
      } else if !IsEmpty(faxFilename) {
        DocumentLayered(base, fields, faxDetailsId, faxFilename);
        params := params["sFaxFileName" := faxFilename];
      } else {
        return Failure(MissingDocument), None;
      }
      fields := fields + DocumentField(faxDetailsId, faxFilename);

      r, sent := Call(params, false, wire);
    }

    /** `Delete_Fax`: the direction, then the fax are checked. */
    method DeleteFax(direction: string, faxDetailsId: string, faxFilename: string, options: Params, wire: Wire)
      returns (r: Result<Json, Error>, sent: Option<Request>)
      ensures !IsDirection(Upper(direction)) ==> r == Failure(BadDirection) && sent == None
      ensures IsDirection(Upper(direction)) && IsEmpty(faxDetailsId) && IsEmpty(faxFilename) ==>
                r == Failure(MissingDocument) && sent == None
      ensures sent.Some? <==> IsDirection(Upper(direction)) && !(IsEmpty(faxDetailsId) && IsEmpty(faxFilename))
      ensures sent.Some? ==>
                && Carries(sent.value, options, "Delete_Fax",
                     map["sDirection" := Upper(direction)] + DocumentField(faxDetailsId, faxFilename))
                && r == Interpret(wire.send(sent.value), wire.jsonDecode, false)
    {
      var params := SetOptions("Delete_Fax", options);
      ghost var base := params;

      var dir := Upper(direction);
      if dir != "IN" && dir != "OUT" {
        return Failure(BadDirection), None;
      }
      ghost var fields: Params := map[];
      assert params == base + fields;
      OneMoreField(base, fields, "sDirection", dir);
      params := params["sDirection" := dir];
      fields := fields["sDirection" := dir];

      if !IsEmpty(faxDetailsId) {
        DocumentLayered(base, fields, faxDetailsId, faxFilename);
        params := params["sFaxDetailsID" := faxDetailsId];
      } else if !IsEmpty(faxFilename) {
        DocumentLayered(base, fields, faxDetailsId, faxFilename);
        params := params["sFaxFileName" := faxFilename];
      } else {
        return Failure(MissingDocument), None;
      }
      fields := fields + DocumentField(faxDetailsId, faxFilename);

      r, sent := Call(params, false, wire);
    }

    /** `Stop_Fax`: the whole decoded reply comes back, whatever its Status. */
    method StopFax(faxDetailsId: string, wire: Wire) returns (r: Result<Json, Error>, sent: Option<Request>)
      ensures sent.Some? && Carries(sent.value, map[], "Stop_Fax", map["sFaxDetailsID" := faxDetailsId])
      ensures r == Interpret(wire.send(sent.value), wire.jsonDecode, true)
      ensures r.Failure? ==> !r.error.ApiFailure?
    {
      var params := SetOptions("Stop_Fax", map[]);
      params := params["sFaxDetailsID" := faxDetailsId];
      r, sent := Call(params, true, wire);
    }
  }
}
