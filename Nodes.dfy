/** Graph nodes: plain JavaScript objects that the hooks edit in place. */
module Nodes {
  import opened Js

  const LabelKey := "_label"
  const IdKey := "_id"
  const UserIdKey := "user_id"
  const DeletedKey := "deleted"
  const IsAdminKey := "is_admin"
  const PasswordKey := "password"
  const WhereKey := "_where"
  const FilterKey := "filter"

  /** The label of user-identity nodes. */
  const UsersLabel := "users"

  /** A node object; the Graph Gateway keeps seeing it after a hook edits it. */
  class Node {
    var props: Props

    constructor (props: Props)
      ensures this.props == props
    {
      this.props := props;
    }
  }

  /** `node._label === 'users'`. */
  predicate IsUsersNode(node: Props)
  {
    StrictEquals(Get(node, LabelKey), Str(UsersLabel))
  }

  /** `delete node.password` when the node is a `users` node, otherwise nothing. */
  function Redact(node: Props): Props
  {
    if IsUsersNode(node) then node - {PasswordKey} else node
  }
}
