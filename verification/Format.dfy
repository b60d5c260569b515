/** How users are named across the program. */
module Format {
  const SEPARATOR: char := '|'

  /** The name under which a user of a node is known. */
  function UserTag(tag: string, uuid: string): string { tag + [SEPARATOR] + uuid }
}
