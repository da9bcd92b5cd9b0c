/**
 * The hooks written inline in the routes of src/server.js (the same closures recur
 * in src/server.ts): the `/api` save hook, the delete routes' read and save hooks,
 * the query-shaping hook and the `/signup` edits. The plain read closures are
 * Controller.ReadHook.
 */
module ServerHooks {
  import opened Wrappers
  import opened Js
  import opened Nodes
  import opened Rbac
  import opened Errors
  import opened Controller

  /** `if (node._label === 'users') delete node.is_admin`. */
  function StripAdmin(node: Props): Props
  {
    if IsUsersNode(node) then node - {IsAdminKey} else node
  }

  /**
   * The `/api` beforeSave: existence probe, then `is_admin` removed from `users` nodes
   * (on both paths, before any verdict), then the update or create verdict and the
   * ownership stamp. No validation, and it never throws.
   */
  function ApiSaveHook(p: Policy, user: Props, node: Props, inStore: bool): (h: Hooked<bool>)
    ensures h.out.Success?
    ensures IsUsersNode(node) ==> IsAdminKey !in h.node
    ensures !IsUsersNode(node) ==> (IsAdminKey in h.node <==> IsAdminKey in node)
    ensures forall k :: k != IsAdminKey && k != UserIdKey ==> Get(h.node, k) == Get(node, k)
    ensures h.out.value <==> Verdict(p, user, StripAdmin(node), if inStore then Update else Create)
    ensures inStore || !h.out.value ==> h.node == StripAdmin(node)
    ensures h.out.value && !inStore
            ==> Get(h.node, UserIdKey) == if StrictEquals(Get(node, IdKey), Get(user, IdKey))
                                         then Get(node, UserIdKey) else Get(user, IdKey)
  {
    var n := if IsUsersNode(node) then node - {IsAdminKey} else node;
    if inStore then Hooked(Success(Verdict(p, user, n, Update)), n)
    else if !Verdict(p, user, n, Create) then Hooked(Success(false), n)
    else if !StrictEquals(Get(n, IdKey), Get(user, IdKey)) then
      Hooked(Success(true), n[UserIdKey := Get(user, IdKey)])
    else Hooked(Success(true), n)
  }

  /** The `/api` beforeSave on the node object itself. */
  method ApiBeforeSave(p: Policy, user: Props, node: Node, inStore: bool) returns (proceed: bool)
    modifies node
    ensures Hooked(Success(proceed), node.props) == ApiSaveHook(p, user, old(node.props), inStore)
  {
    if IsUsersNode(node.props) {
      node.props := node.props - {IsAdminKey};
    }
    if inStore {
      return Verdict(p, user, node.props, Update);
    }
    if !Verdict(p, user, node.props, Create) {
      return false;
    }
    if !StrictEquals(Get(node.props, IdKey), Get(user, IdKey)) {
      node.props := node.props[UserIdKey := Get(user, IdKey)];
    }
    return true;
  }

  /** The `/api` hook is the controller's beforeSave run on the stripped node, minus validation. */
  lemma ApiSaveIsStrippedSave(p: Policy, user: Props, node: Props, inStore: bool)
    ensures ApiSaveHook(p, user, node, inStore) == SaveHook(p, user, StripAdmin(node), Pass, inStore)
  {
  }

  /** Even an admin caller cannot write `is_admin` onto a `users` node through `/api`. */
  lemma AdminFlagNeverWritten(p: Policy, user: Props, node: Props, inStore: bool)
    requires IsUsersNode(node)
    ensures !Truthy(Get(ApiSaveHook(p, user, node, inStore).node, IsAdminKey))
  {
  }

  const DeleteDeniedMessage := "unauthorized"

  /**
   * The delete routes' beforeRead: a read denial throws, aborting the whole operation;
   * otherwise the node is redacted as by beforeRead.
   */
  function DeleteRouteReadHook(p: Policy, user: Props, node: Props): (h: Hooked<bool>)
    ensures h.out.Failure? <==> !Verdict(p, user, node, Read)
    ensures h.out.Failure? ==> h.out.error == Plain(DeleteDeniedMessage) && h.node == node
    ensures h.out.Success? ==> h.out.value && h.node == Redact(node)
  {
    if !Verdict(p, user, node, Read) then Hooked(Failure(Plain(DeleteDeniedMessage)), node)
    else Hooked(Success(true), Redact(node))
  }

  method DeleteRouteBeforeRead(p: Policy, user: Props, node: Node) returns (r: Result<bool, Error>)
    modifies node
    ensures Hooked(r, node.props) == DeleteRouteReadHook(p, user, old(node.props))
  {
    if !Verdict(p, user, node.props, Read) {
      return Failure(Plain(DeleteDeniedMessage));
    }
    if IsUsersNode(node.props) {
      node.props := node.props - {PasswordKey};
    }
    return Success(true);
  }

  /** It throws exactly where beforeRead would filter, and otherwise agrees with it. */
  lemma DeleteRouteReadAgreesWithRead(p: Policy, user: Props, node: Props)
    ensures DeleteRouteReadHook(p, user, node).out.Failure? <==> ReadHook(p, user, node).out == Success(false)
    ensures DeleteRouteReadHook(p, user, node).out.Success?
            ==> DeleteRouteReadHook(p, user, node) == ReadHook(p, user, node)
  {
  }

  /** The delete phase's beforeSave: soft-delete exactly the nodes the delete verdict allows. */
  function DeletePhaseSaveHook(p: Policy, user: Props, node: Props): (h: Hooked<bool>)
    ensures h.out == Success(Verdict(p, user, node, Delete))
    ensures h.out.value ==> h.node == node[DeletedKey := Bool(true)]
    ensures !h.out.value ==> h.node == node
  {
    if !Verdict(p, user, node, Delete) then Hooked(Success(false), node)
    else Hooked(Success(true), node[DeletedKey := Bool(true)])
  }

  method DeletePhaseBeforeSave(p: Policy, user: Props, node: Node) returns (proceed: bool)
    modifies node
    ensures Hooked(Success(proceed), node.props) == DeletePhaseSaveHook(p, user, old(node.props))
  {
    if !Verdict(p, user, node.props, Delete) {
      return false;
    }
    node.props := node.props[DeletedKey := Bool(true)];
    return true;
  }

  /** Once soft-deleted, a node is invisible to every non-admin reader. */
  lemma SoftDeletedIsHidden(user: Props, reader: Props, node: Props)
    requires DeletePhaseSaveHook(LolaPolicy, user, node).out == Success(true)
    requires !Truthy(Get(reader, IsAdminKey))
    ensures !Verdict(LolaPolicy, reader, DeletePhaseSaveHook(LolaPolicy, user, node).node, Read)
  {
    var after := DeletePhaseSaveHook(LolaPolicy, user, node).node;
    ReadVerdict(Get(after, LabelKey), Context(reader, after));
  }

  /** A non-owner's delete marks nothing; an admin's delete marks any node. */
  lemma DeleteOwnership(user: Props, node: Props)
    ensures !Truthy(Get(user, IsAdminKey)) && !StrictEquals(Get(user, IdKey), Get(node, UserIdKey))
            ==> DeletePhaseSaveHook(LolaPolicy, user, node) == Hooked(Success(false), node)
    ensures Truthy(Get(user, IsAdminKey))
            ==> DeletePhaseSaveHook(LolaPolicy, user, node).node == node[DeletedKey := Bool(true)]
  {
    DeleteVerdict(Get(node, LabelKey), Context(user, node));
  }

  // ---------------------------------------------------------------------------
  // beforeParseNode

  const NotDeletedFilter := "{this}.deleted IS NULL"

  /** `({this}.deleted IS NULL) AND (<f>)`. */
  function AndNotDeleted(f: string): string
  {
    "(" + NotDeletedFilter + ") AND (" + f + ")"
  }

  /** `{ filter: '{this}.deleted IS NULL' }`. */
  const NotDeletedWhere := Obj(map[FilterKey := Str(NotDeletedFilter)])

  /**
   * beforeParseNode as written: a truthy `_where` gets `filter` set to the wrapped string
   * of the WHOLE `_where` (for an object "[object Object]"); a truthy primitive cannot take
   * a property in strict (class) code and throws; a falsy one is replaced.
   */
  function ParseNodeAsWritten(node: Props): (r: Result<Props, Error>)
    ensures !Truthy(Get(node, WhereKey)) ==> r == Success(node[WhereKey := NotDeletedWhere])
    ensures r.Failure? <==> Truthy(Get(node, WhereKey)) && !Get(node, WhereKey).Obj?
    ensures r.Success? ==> r.value.Keys == node.Keys + {WhereKey}
    ensures r.Success? ==> forall k :: k != WhereKey ==> Get(r.value, k) == Get(node, k)
    ensures Get(node, WhereKey).Obj? ==>
              var before := Get(node, WhereKey).props;
              r.Success? && Get(r.value, WhereKey).Obj?
              && Get(r.value, WhereKey).props.Keys == before.Keys + {FilterKey}
              && forall k :: k != FilterKey ==> Get(Get(r.value, WhereKey).props, k) == Get(before, k)
  {
    var w := Get(node, WhereKey);
    if !Truthy(w) then Success(node[WhereKey := NotDeletedWhere])
    else if w.Obj? then Success(node[WhereKey := Obj(w.props[FilterKey := Str(AndNotDeleted(ObjectToString))])])
    else Failure(TypeError)
  }

  /** beforeParseNode on the node object itself. */
  method BeforeParseNode(node: Node) returns (r: Outcome<Error>)
    modifies node
    ensures var spec := ParseNodeAsWritten(old(node.props));
            (spec.Failure? ==> r == Fail(spec.error) && node.props == old(node.props))
            && (spec.Success? ==> r == Pass && node.props == spec.value)
  {
    var w := Get(node.props, WhereKey);
    if Truthy(w) {
      if !w.Obj? {
        return Fail(TypeError);
      }
      node.props := node.props[WhereKey := Obj(w.props[FilterKey := Str(AndNotDeleted(ObjectToString))])];
    } else {
      node.props := node.props[WhereKey := NotDeletedWhere];
    }
    return Pass;
  }

  /** The filter a parameterized `_where` object ends up with. */
  function FilterOf(r: Result<Props, Error>): Value
  {
    if r.Success? && Get(r.value, WhereKey).Obj? then Get(Get(r.value, WhereKey).props, FilterKey) else Undefined
  }

  /** As written, the caller's filter is lost: every object `_where` gets the same filter. */
  lemma AsWrittenDropsFilter(n1: Props, n2: Props)
    requires Get(n1, WhereKey).Obj? && Get(n2, WhereKey).Obj?
    ensures FilterOf(ParseNodeAsWritten(n1)) == FilterOf(ParseNodeAsWritten(n2))
            == Str(AndNotDeleted(ObjectToString))
  {
  }

  /** A concrete query whose owner filter disappears. */
  lemma AsWrittenCounterexample()
    ensures var q := map[WhereKey := Obj(map[FilterKey := Str("{this}.owner = :o")])];
            FilterOf(ParseNodeAsWritten(q)) != Str(AndNotDeleted("{this}.owner = :o"))
  {
    var q := map[WhereKey := Obj(map[FilterKey := Str("{this}.owner = :o")])];
    var f := FilterOf(ParseNodeAsWritten(q));
    assert f.s[30] == '[';
    assert AndNotDeleted("{this}.owner = :o")[30] == '{';
  }

  /**
   * beforeParseNode as evidently intended: an existing string filter F becomes
   * `(not deleted) AND (F)`, an object without one gets the not-deleted filter alone,
   * and the other keys of `_where` (such as `params`) are kept.
   */
  function ParseNodeIntended(node: Props): (r: Result<Props, Error>)
    ensures !Truthy(Get(node, WhereKey)) ==> r == Success(node[WhereKey := NotDeletedWhere])
    ensures r.Failure? <==> Truthy(Get(node, WhereKey)) && !Get(node, WhereKey).Obj?
    ensures r.Success? ==> forall k :: k != WhereKey ==> Get(r.value, k) == Get(node, k)
    ensures Get(node, WhereKey).Obj? && !Get(Get(node, WhereKey).props, FilterKey).Str?
            ==> FilterOf(r) == Str(NotDeletedFilter)
    ensures Get(node, WhereKey).Obj? ==>
              var before := Get(node, WhereKey).props;
              r.Success? && Get(r.value, WhereKey).Obj?
              && Get(r.value, WhereKey).props.Keys == before.Keys + {FilterKey}
              && forall k :: k != FilterKey ==> Get(Get(r.value, WhereKey).props, k) == Get(before, k)
  {
    var w := Get(node, WhereKey);
    if !Truthy(w) then Success(node[WhereKey := NotDeletedWhere])
    else if !w.Obj? then Failure(TypeError)
    else
      var f := Get(w.props, FilterKey);
      var filter := if f.Str? then AndNotDeleted(f.s) else NotDeletedFilter;
      Success(node[WhereKey := Obj(w.props[FilterKey := Str(filter)])])
  }

  /** The intended hook wraps the caller's filter and keeps every other `_where` key. */
  lemma IntendedWrapsFilter(node: Props, f: string)
    requires Get(node, WhereKey).Obj? && Get(Get(node, WhereKey).props, FilterKey) == Str(f)
    ensures FilterOf(ParseNodeIntended(node)) == Str(AndNotDeleted(f))
    ensures var before := Get(node, WhereKey).props;
            var after := Get(ParseNodeIntended(node).value, WhereKey).props;
            after.Keys == before.Keys && forall k :: k != FilterKey ==> Get(after, k) == Get(before, k)
    ensures var s := AndNotDeleted(f); s[|s| - |f| - 1..|s| - 1] == f
  {
  }

  // ---------------------------------------------------------------------------
  // /signup

  /** The user node `/signup` saves: hashed password, `users` label, no `is_admin`. */
  function SignupUser(user: Props, hashed: Value): (u: Props)
    ensures IsUsersNode(u) && Get(u, PasswordKey) == hashed && IsAdminKey !in u
    ensures u.Keys == user.Keys + {PasswordKey, LabelKey} - {IsAdminKey}
    ensures forall k :: k != PasswordKey && k != LabelKey && k != IsAdminKey ==> Get(u, k) == Get(user, k)
  {
    user[PasswordKey := hashed][LabelKey := Str(UsersLabel)] - {IsAdminKey}
  }

  /** The field edits of `/signup`; a hashing failure leaves the body untouched. */
  method Signup(user: Node, hash: Value -> Result<Value, Error>) returns (r: Outcome<Error>)
    modifies user
    ensures var h := hash(Get(old(user.props), PasswordKey));
            (h.Failure? ==> r == Fail(h.error) && user.props == old(user.props))
            && (h.Success? ==> r == Pass && user.props == SignupUser(old(user.props), h.value))
  {
    var hashed := hash(Get(user.props, PasswordKey));
    if hashed.Failure? {
      return Fail(hashed.error);
    }
    user.props := user.props[PasswordKey := hashed.value];
    user.props := user.props[LabelKey := Str(UsersLabel)];
    user.props := user.props - {IsAdminKey};
    return Pass;
  }

  /** `/signup` strips `is_admin`; the controller's createUser keeps it. */
  lemma SignupStripsAdminControllerDoesNot(user: Props, hashed: Value)
    ensures IsAdminKey !in SignupUser(user, hashed)
    ensures Get(StoredUser(user, hashed), IsAdminKey) == Get(user, IsAdminKey)
  {
  }
}
