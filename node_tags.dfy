/** The key-value tag attached to a node (nodes/node.go). */
module NodeTags {
  datatype Tag = Tag(key: string, value: string)
}
