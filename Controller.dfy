/**
 * The controller (src/controller.js and src/controller.ts): the per-node hooks,
 * the constructor's checks, createUser, findUser and the error handling of the
 * five graph operations.
 *
 * The existence probe, the schema validation, password hashing and verification,
 * and the way a graph operation settles are inputs: they happen in collaborators
 * outside the model.
 */
module Controller {
  import opened Wrappers
  import opened Js
  import opened Variants
  import opened Nodes
  import opened Rbac
  import opened Errors

  /** A hook's settled result and the node as the hook leaves it. */
  datatype Hooked<T> = Hooked(out: Result<T, Error>, node: Props)

  /** `rbac.can('users', node._label, op, { user, node })`. */
  predicate Verdict(p: Policy, user: Props, node: Props, op: Operation)
  {
    Can(p, UsersRole, Get(node, LabelKey), op, Context(user, node))
  }

  // ---------------------------------------------------------------------------
  // beforeSave

  /**
   * beforeSave: validation (an oracle, whose failure message is the joined list of
   * violations), then the existence probe, then the update or create verdict, then
   * the ownership stamp.
   */
  function SaveHook(p: Policy, user: Props, node: Props, validation: Outcome<string>, inStore: bool): (h: Hooked<bool>)
    // validation is the only way the hook throws, and it throws before any probe or edit
    ensures h.out.Failure? <==> validation.Fail?
    ensures validation.Fail? ==> h == Hooked(Failure(Plain(validation.error)), node)
    // an existing node gets the update verdict, a new one the create verdict
    ensures h.out.Success? ==> (h.out.value <==> Verdict(p, user, node, if inStore then Update else Create))
    // the only edit: an allowed create of a node that is not the caller gets `user_id := user._id`
    ensures h.node == if h.out == Success(true) && !inStore && !StrictEquals(Get(node, IdKey), Get(user, IdKey))
                      then node[UserIdKey := Get(user, IdKey)] else node
  {
    if validation.Fail? then Hooked(Failure(Plain(validation.error)), node)
    else if inStore then Hooked(Success(Verdict(p, user, node, Update)), node)
    else if !Verdict(p, user, node, Create) then Hooked(Success(false), node)
    else if !StrictEquals(Get(node, IdKey), Get(user, IdKey)) then
      Hooked(Success(true), node[UserIdKey := Get(user, IdKey)])
    else Hooked(Success(true), node)
  }

  /** beforeSave on the node object itself. */
  method BeforeSave(p: Policy, user: Props, node: Node, validation: Outcome<string>, inStore: bool)
    returns (r: Result<bool, Error>)
    modifies node
    ensures Hooked(r, node.props) == SaveHook(p, user, old(node.props), validation, inStore)
  {
    if validation.Fail? {
      return Failure(Plain(validation.error));
    }
    if inStore {
      return Success(Verdict(p, user, node.props, Update));
    }
    if !Verdict(p, user, node.props, Create) {
      return Success(false);
    }
    if !StrictEquals(Get(node.props, IdKey), Get(user, IdKey)) {
      node.props := node.props[UserIdKey := Get(user, IdKey)];
    }
    return Success(true);
  }

  /**
   * src/controller.js:15-33 as written: the hook is called as a plain function, so
   * `this` is not the controller and `this.konekto` is undefined; once validation
   * passes, reading `findOneByQueryObject` of undefined throws a TypeError.
   */
  function SaveHookAsWritten(node: Props, validation: Outcome<string>): (h: Hooked<bool>)
    ensures h.node == node
    ensures validation.Fail? ==> h.out == Failure(Plain(validation.error))
    ensures validation.Pass? ==> h.out == Failure(TypeError)
  {
    if validation.Fail? then Hooked(Failure(Plain(validation.error)), node)
    else Hooked(Failure(TypeError), node)
  }

  /** As written, no node ever gets a verdict; with `this` bound, every valid node does. */
  lemma AsWrittenSaveNeverProceeds(p: Policy, user: Props, node: Props, validation: Outcome<string>, inStore: bool)
    ensures SaveHookAsWritten(node, validation).out.Failure?
    ensures SaveHook(p, user, node, Pass, inStore).out.Success?
    ensures validation.Pass? ==> SaveHookAsWritten(node, validation).out != SaveHook(p, user, node, validation, inStore).out
  {
  }

  /** Under the `users` rules a non-admin can never create a `users` node. */
  lemma NoSelfRegistrationThroughSave(user: Props, node: Props)
    requires IsUsersNode(node) && !Truthy(Get(user, IsAdminKey))
    ensures SaveHook(LolaPolicy, user, node, Pass, false) == Hooked(Success(false), node)
  {
    CreateVerdict(Get(node, LabelKey), Context(user, node));
  }

  /** A non-owner's update of an existing node is excluded and the node is untouched. */
  lemma NonOwnerUpdateIsExcluded(user: Props, node: Props)
    requires !Truthy(Get(user, IsAdminKey))
    requires !StrictEquals(Get(user, IdKey), Get(node, IdKey))
    requires !StrictEquals(Get(node, UserIdKey), Get(user, IdKey))
    ensures SaveHook(LolaPolicy, user, node, Pass, true) == Hooked(Success(false), node)
  {
    UpdateVerdict(Get(node, LabelKey), Context(user, node));
  }

  /**
   * Whoever creates a node can update it afterwards: either the stamp makes them its
   * owner or the node is the caller's own node. This needs a primitive, non-NaN `_id`.
   */
  lemma CreatorCanUpdate(user: Props, node: Props)
    requires StrictEquals(Get(user, IdKey), Get(user, IdKey))
    requires SaveHook(LolaPolicy, user, node, Pass, false).out == Success(true)
    ensures Verdict(LolaPolicy, user, SaveHook(LolaPolicy, user, node, Pass, false).node, Update)
  {
    var after := SaveHook(LolaPolicy, user, node, Pass, false).node;
    UpdateVerdict(Get(after, LabelKey), Context(user, after));
    if StrictEquals(Get(node, IdKey), Get(user, IdKey)) {
      assert after == node;
      StrictEqualsSymmetric(Get(node, IdKey), Get(user, IdKey));
    } else {
      assert Get(after, UserIdKey) == Get(user, IdKey);
    }
  }

  // ---------------------------------------------------------------------------
  // beforeRead and beforeDelete

  /** beforeRead: the read gate, then password redaction for `users` nodes. */
  function ReadHook(p: Policy, user: Props, node: Props): (h: Hooked<bool>)
    ensures h.out == Success(Verdict(p, user, node, Read))
    // a denied node is returned before redaction and left as it was
    ensures !h.out.value ==> h.node == node
    ensures h.out.value ==> h.node == if IsUsersNode(node) then node - {PasswordKey} else node
  {
    if !Verdict(p, user, node, Read) then Hooked(Success(false), node)
    else Hooked(Success(true), Redact(node))
  }

  /** beforeRead on the node object itself. */
  method BeforeRead(p: Policy, user: Props, node: Node) returns (proceed: bool)
    modifies node
    ensures Hooked(Success(proceed), node.props) == ReadHook(p, user, old(node.props))
  {
    if !Verdict(p, user, node.props, Read) {
      return false;
    }
    if IsUsersNode(node.props) {
      node.props := node.props - {PasswordKey};
    }
    return true;
  }

  /**
   * No condition of the predicate language reads `password`, so for every policy written
   * in it (such as `LolaPolicy` and `AllowAll`) removing `password` changes no verdict.
   */
  lemma {:induction false} VerdictIgnoresPassword(p: Policy, user: Props, node: Props, op: Operation)
    ensures Verdict(p, user, node - {PasswordKey}, op) == Verdict(p, user, node, op)
  {
    var node' := node - {PasswordKey};
    assert Get(node', LabelKey) == Get(node, LabelKey);
    assert Get(node', IdKey) == Get(node, IdKey);
    assert Get(node', UserIdKey) == Get(node, UserIdKey);
    assert Get(node', DeletedKey) == Get(node, DeletedKey);
    var rules := RulesFor(p, UsersRole);
    var resource := Get(node, LabelKey);
    forall i | 0 <= i < |rules|
      ensures Grants(rules[i], resource, op, Context(user, node')) == Grants(rules[i], resource, op, Context(user, node))
    {
    }
  }

  /**
   * For every policy written in the predicate language, applying beforeRead twice leaves
   * the node as applying it once, with the same verdict; the only field it can remove is
   * `password`.
   */
  lemma ReadHookIdempotent(p: Policy, user: Props, node: Props)
    ensures ReadHook(p, user, ReadHook(p, user, node).node) == ReadHook(p, user, node)
    ensures forall k :: k != PasswordKey ==> Get(ReadHook(p, user, node).node, k) == Get(node, k)
  {
    if Verdict(p, user, node, Read) && IsUsersNode(node) {
      VerdictIgnoresPassword(p, user, node, Read);
      var once := node - {PasswordKey};
      assert once - {PasswordKey} == once;
      assert IsUsersNode(once);
    }
  }

  /** A soft-deleted node is dropped for every non-admin reader. */
  lemma DeletedNodeIsHidden(user: Props, node: Props)
    requires Truthy(Get(node, DeletedKey)) && !Truthy(Get(user, IsAdminKey))
    ensures ReadHook(LolaPolicy, user, node) == Hooked(Success(false), node)
  {
    ReadVerdict(Get(node, LabelKey), Context(user, node));
  }

  const UnauthorizedMessage := "Unauthorized"

  /**
   * beforeDelete: beforeRead (with its redaction), and a 403 HttpError where it denies.
   * On success it returns nothing, i.e. `undefined`.
   */
  function DeleteHook(p: Policy, user: Props, node: Props): (h: Hooked<Value>)
    ensures h.out.Failure? <==> ReadHook(p, user, node).out == Success(false)
    ensures h.out.Failure? ==> h.out.error == HttpError(UnauthorizedMessage, 403) && h.node == node
    ensures h.out.Success? ==> h.out.value == Undefined && h.node == ReadHook(p, user, node).node
  {
    var read := ReadHook(p, user, node);
    if read.out == Success(false) then Hooked(Failure(HttpError(UnauthorizedMessage, 403)), node)
    else Hooked(Success(Undefined), read.node)
  }

  /** beforeDelete on the node object itself. */
  method BeforeDelete(p: Policy, user: Props, node: Node) returns (r: Result<Value, Error>)
    modifies node
    ensures Hooked(r, node.props) == DeleteHook(p, user, old(node.props))
  {
    var allowed := BeforeRead(p, user, node);
    if !allowed {
      return Failure(HttpError(UnauthorizedMessage, 403));
    }
    return Success(Undefined);
  }

  /**
   * The delete hook gates on the READ verdict: a non-admin who does not own a visible
   * node still passes it, and what it hands back to the gateway is never truthy.
   */
  lemma DeleteHookIgnoresOwnership(user: Props, node: Props)
    requires !Truthy(Get(node, DeletedKey))
    ensures DeleteHook(LolaPolicy, user, node).out == Success(Undefined)
    ensures !Truthy(DeleteHook(LolaPolicy, user, node).out.value)
  {
    ReadVerdict(Get(node, LabelKey), Context(user, node));
  }

  // ---------------------------------------------------------------------------
  // The operations: how each settles once the graph client has settled

  datatype Call = Save | FindById | FindByQueryObject | DeleteById | DeleteByQueryObject

  /**
   * save, findById and findByQueryObject catch with handleGenericError; deleteById and
   * deleteByQueryObject with handleErrors. `gateway` is the graph client's settlement,
   * including any error thrown by a hook.
   */
  function Settle<T>(c: Call, gateway: Result<T, Error>): (r: Result<T, Error>)
    ensures gateway.Success? ==> r == gateway
    ensures gateway.Failure? ==> r.Failure? && r.error.HttpError?
    ensures gateway.Failure? && (c.Save? || c.FindById? || c.FindByQueryObject?)
            ==> r.error == HttpError(TryAgainLater, 500)
    ensures gateway.Failure? && (c.DeleteById? || c.DeleteByQueryObject?) && gateway.error.HttpError?
            ==> r == gateway
    ensures gateway.Failure? && (c.DeleteById? || c.DeleteByQueryObject?) && !gateway.error.HttpError?
            ==> r.error == HttpError(TryAgainLater, 500)
  {
    match gateway
    case Success(_) => gateway
    case Failure(e) =>
      match c
      case Save => Failure(HandleGenericError(e))
      case FindById => Failure(HandleGenericError(e))
      case FindByQueryObject => Failure(HandleGenericError(e))
      case DeleteById => Failure(HandleErrors(e))
      case DeleteByQueryObject => Failure(HandleErrors(e))
  }

  /**
   * The delete hook's 403 survives deleteById and deleteByQueryObject; the same HttpError
   * caught by save or a find would have become a 500.
   */
  lemma DeleteDenialSurfacesAs403(p: Policy, user: Props, node: Props, c: Call)
    requires !Verdict(p, user, node, Read)
    ensures var e := DeleteHook(p, user, node).out;
            e.Failure?
            && Settle<Value>(c, Failure(e.error)).error.status == if c.DeleteById? || c.DeleteByQueryObject? then 403 else 500
  {
  }

  // ---------------------------------------------------------------------------
  // Construction, createUser and findUser

  const NoKonektoMessage := "You must provide a konekto instance as first parameter"

  /**
   * The checks of the CommonJS constructor and the policy it keeps: no konekto, then no
   * options, are errors; empty options mean allow-all.
   */
  function ControllerPolicy(konektoGiven: bool, rbacOptions: Option<RbacOptions>): (r: Result<Policy, Error>)
    ensures !konektoGiven ==> r == Failure(Plain(NoKonektoMessage))
    ensures konektoGiven && rbacOptions.None? ==> r == Failure(Plain(RbacRequiredMessage))
    ensures r.Success? <==> konektoGiven && rbacOptions.Some?
    ensures r.Success? && NoKeys(rbacOptions.value) ==> forall role, resource, op, ctx :: Can(r.value, role, resource, op, ctx)
    ensures r.Success? && !NoKeys(rbacOptions.value) ==> r.value == FromOptions(rbacOptions.value)
  {
    if !konektoGiven then Failure(Plain(NoKonektoMessage))
    else if rbacOptions.None? then Failure(Plain(RbacRequiredMessage))
    else Success(ChoosePolicy(rbacOptions.value))
  }

  /** The user node createUser hands to the graph client. */
  function StoredUser(user: Props, hashed: Value): (u: Props)
    ensures IsUsersNode(u) && Get(u, PasswordKey) == hashed
    ensures u.Keys == user.Keys + {PasswordKey, LabelKey}
    ensures forall k :: k != PasswordKey && k != LabelKey ==> Get(u, k) == Get(user, k)
  {
    user[PasswordKey := hashed][LabelKey := Str(UsersLabel)]
  }

  const CreateFailedMessage := "Coudn't create the user, please try again later"

  /**
   * createUser: validate (a failure is a 400 before any hashing), hash the password,
   * label the node `users`, save it. A hashing failure is not caught.
   */
  method CreateUser(d: Dialect, user: Node, validation: Outcome<string>,
                    hash: Value -> Result<Value, Error>, saved: Result<Value, Error>)
    returns (r: Result<Value, Error>)
    modifies user
    ensures validation.Fail? ==> r == Failure(Thrown(d, validation.error, 400)) && user.props == old(user.props)
    ensures validation.Pass? && hash(Get(old(user.props), PasswordKey)).Failure?
            ==> r == Failure(hash(Get(old(user.props), PasswordKey)).error) && user.props == old(user.props)
    ensures validation.Pass? && hash(Get(old(user.props), PasswordKey)).Success?
            ==> user.props == StoredUser(old(user.props), hash(Get(old(user.props), PasswordKey)).value)
                && r == if saved.Success? then saved else Failure(Thrown(d, CreateFailedMessage, 500))
  {
    if validation.Fail? {
      return Failure(Thrown(d, validation.error, 400));
    }
    var hashed := hash(Get(user.props, PasswordKey));
    if hashed.Failure? {
      return Failure(hashed.error);
    }
    user.props := user.props[PasswordKey := hashed.value];
    user.props := user.props[LabelKey := Str(UsersLabel)];
    if saved.Failure? {
      return Failure(Thrown(d, CreateFailedMessage, 500));
    }
    return saved;
  }

  /**
   * The CommonJS createUser saves the new user with beforeSave, the user being the caller.
   * With the hook bound as intended (`SaveHook`) and handed the saved user itself as the
   * node, under the `users` rules its create verdict is exactly its own `is_admin` claim.
   */
  lemma SignupVerdictIsAdminClaim(user: Props, hashed: Value)
    ensures var u := StoredUser(user, hashed);
            SaveHook(LolaPolicy, u, u, Pass, false).out == Success(Truthy(Get(user, IsAdminKey)))
  {
    var u := StoredUser(user, hashed);
    CreateVerdict(Get(u, LabelKey), Context(u, u));
  }

  const UserNotFoundMessage := "User not found"
  const InvalidPasswordMessage := "invalid password"

  /**
   * findUser: `found` is the lookup by username, `verified` the settled password check,
   * which is awaited outside any try, so a rejection propagates as it is.
   * No user is a 404, a failed check a 400; otherwise the user loses `password`.
   */
  method FindUser(d: Dialect, found: Node?, verified: Result<bool, Error>) returns (r: Result<Node?, Error>)
    modifies found
    ensures found == null ==> r == Failure(Thrown(d, UserNotFoundMessage, 404))
    ensures found != null && verified.Failure?
            ==> r == Failure(verified.error) && found.props == old(found.props)
    ensures found != null && verified == Success(false)
            ==> r == Failure(Thrown(d, InvalidPasswordMessage, 400)) && found.props == old(found.props)
    ensures found != null && verified == Success(true)
            ==> r == Success(found) && found.props == old(found.props) - {PasswordKey}
  {
    if found == null {
      return Failure(Thrown(d, UserNotFoundMessage, 404));
    }
    if verified.Failure? {
      return Failure(verified.error);
    }
    if !verified.value {
      return Failure(Thrown(d, InvalidPasswordMessage, 400));
    }
    found.props := found.props - {PasswordKey};
    return Success(found);
  }
}
