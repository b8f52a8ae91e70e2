/** The names console users may have. */
module Usernames {
  predicate ValidChar(c: char) {
    'A' <= c <= 'Z' || 'a' <= c <= 'z' || '0' <= c <= '9' || c in "._@-"
  }

  predicate ValidUsername(name: string) { 1 <= |name| <= 64 && forall c | c in name :: ValidChar(c) }
}
