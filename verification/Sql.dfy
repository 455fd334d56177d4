// Vocabulary shared by all tables: nullable columns, outcomes, composite keys and column types.
module Sql {
  datatype Option<+T> = None | Some(value: T)

  // A function either commits a value or raises; an error rolls every table back.
  datatype Result<+T> = Ok(value: T) | Err(error: Error)

  datatype Error =
    | NV003  // stale input
    | NV004  // evidence provenance mismatch
    | NV005  // terminal planning run is immutable
    | NV006  // invalid argument or transition
    | NV007  // actor not assigned
    | NV008  // idempotency request mismatch
    | NV009  // effective task already exists
    | NV010  // lease generation lost
    | NV011  // candidate contract mismatch
    | NV012  // promotion conflict
    | UniqueViolation
    | CheckViolation
    | NotNullViolation
    | ForeignKeyViolation
    | NumericOverflow

  // Every row id is scoped by its organization.
  datatype Key = Key(org: nat, id: nat)

  // A version of a source pack.
  datatype PackKey = PackKey(org: nat, id: nat, version: int)

  const MAX_INTEGER := 0x7FFF_FFFF
  const MAX_BIGINT := 0x7FFF_FFFF_FFFF_FFFF

  // Sixty-four lower-case hexadecimal digits.
  predicate IsSha256(s: string) {
    |s| == 64 && forall i :: 0 <= i < |s| ==> '0' <= s[i] <= '9' || 'a' <= s[i] <= 'f'
  }

  // Relative, and without a segment that leads upwards.
  predicate IsSafePath(path: string) {
    && (path != "" ==> path[0] != '/')
    && !exists i :: 0 <= i < |path| - 1 && path[i] == '.' && path[i + 1] == '.'
                    && (i == 0 || path[i - 1] == '/') && (i + 2 == |path| || path[i + 2] == '/')
  }

  // Empty after trimming blanks.
  predicate IsBlank(s: string) {
    forall i :: 0 <= i < |s| ==> s[i] == ' '
  }
}
