/**
 * The error table shared by every service: each code has an HTTP status, a code string whose
 * prefix names the status family, and a user-facing message.
 */
module ErrorCodes {
  import opened Wrappers

  datatype HttpStatus = BAD_REQUEST | UNAUTHORIZED | FORBIDDEN | NOT_FOUND | CONFLICT | INTERNAL_SERVER_ERROR

  datatype ErrorCode =
    | INVALID_INPUT | DUPLICATE_EMAIL | LOGIN_FAILED | NEGATIVE_AMOUNT | CATEGORY_TYPE_MISMATCH
    | INSUFFICIENT_BALANCE | BALANCE_WOULD_BE_NEGATIVE
    | INVALID_TOKEN | EXPIRED_TOKEN
    | ACCESS_DENIED
    | USER_NOT_FOUND | CATEGORY_NOT_FOUND | TRANSACTION_NOT_FOUND | ACCOUNT_NOT_FOUND
    | CATEGORY_HAS_TRANSACTIONS | CATEGORY_DUPLICATE_NAME
    | INTERNAL_ERROR | EXPORT_FAILED

  /** The numeric value of each status. */
  function StatusValue(s: HttpStatus): (n: int)
    ensures 400 <= n < 600
    ensures n < 500 <==> s != INTERNAL_SERVER_ERROR
  {
    match s
    case BAD_REQUEST => 400
    case UNAUTHORIZED => 401
    case FORBIDDEN => 403
    case NOT_FOUND => 404
    case CONFLICT => 409
    case INTERNAL_SERVER_ERROR => 500
  }

  /** The prefix every code string of a status family starts with. */
  function FamilyPrefix(s: HttpStatus): string
  {
    match s
    case BAD_REQUEST => "BAD_REQUEST_"
    case UNAUTHORIZED => "UNAUTHORIZED_"
    case FORBIDDEN => "FORBIDDEN_"
    case NOT_FOUND => "NOT_FOUND_"
    case CONFLICT => "CONFLICT_"
    case INTERNAL_SERVER_ERROR => "SERVER_ERROR_"
  }

  function Status(e: ErrorCode): HttpStatus
  {
    match e
    case INVALID_INPUT | DUPLICATE_EMAIL | LOGIN_FAILED | NEGATIVE_AMOUNT | CATEGORY_TYPE_MISMATCH
       | INSUFFICIENT_BALANCE | BALANCE_WOULD_BE_NEGATIVE => BAD_REQUEST
    case INVALID_TOKEN | EXPIRED_TOKEN => UNAUTHORIZED
    case ACCESS_DENIED => FORBIDDEN
    case USER_NOT_FOUND | CATEGORY_NOT_FOUND | TRANSACTION_NOT_FOUND | ACCOUNT_NOT_FOUND => NOT_FOUND
    case CATEGORY_HAS_TRANSACTIONS | CATEGORY_DUPLICATE_NAME => CONFLICT
    case INTERNAL_ERROR | EXPORT_FAILED => INTERNAL_SERVER_ERROR
  }

  /** The code string; it always begins with the prefix of its status family. */
  function Code(e: ErrorCode): (c: string)
    ensures FamilyPrefix(Status(e)) <= c
    ensures |c| == |FamilyPrefix(Status(e))| + 3
  {
    match e
    case INVALID_INPUT => "BAD_REQUEST_001"
    case DUPLICATE_EMAIL => "BAD_REQUEST_002"
    case LOGIN_FAILED => "BAD_REQUEST_003"
    case NEGATIVE_AMOUNT => "BAD_REQUEST_004"
    case CATEGORY_TYPE_MISMATCH => "BAD_REQUEST_005"
    case INSUFFICIENT_BALANCE => "BAD_REQUEST_006"
    case BALANCE_WOULD_BE_NEGATIVE => "BAD_REQUEST_007"
    case INVALID_TOKEN => "UNAUTHORIZED_001"
    case EXPIRED_TOKEN => "UNAUTHORIZED_002"
    case ACCESS_DENIED => "FORBIDDEN_001"
    case USER_NOT_FOUND => "NOT_FOUND_001"
    case CATEGORY_NOT_FOUND => "NOT_FOUND_002"
    case TRANSACTION_NOT_FOUND => "NOT_FOUND_003"
    case ACCOUNT_NOT_FOUND => "NOT_FOUND_004"
    case CATEGORY_HAS_TRANSACTIONS => "CONFLICT_001"
    case CATEGORY_DUPLICATE_NAME => "CONFLICT_002"
    case INTERNAL_ERROR => "SERVER_ERROR_001"
    case EXPORT_FAILED => "SERVER_ERROR_002"
  }

  function Message(e: ErrorCode): string
  {
    match e
    case INVALID_INPUT => "잘못된 입력 값입니다."
    case DUPLICATE_EMAIL => "이미 사용 중인 이메일입니다."
    case LOGIN_FAILED => "이메일 또는 비밀번호가 올바르지 않습니다."
    case NEGATIVE_AMOUNT => "거래 금액은 0보다 커야합니다."
    case CATEGORY_TYPE_MISMATCH => "카테고리 유형과 거래 유형이 일치하지 않습니다"
    case INSUFFICIENT_BALANCE => "계좌 잔액이 부족합니다."
    case BALANCE_WOULD_BE_NEGATIVE => "해당 거래를 삭제하면 계좌 잔액이 0원 미만이 되어 불가합니다."
    case INVALID_TOKEN => "유효하지 않은 토큰입니다."
    case EXPIRED_TOKEN => "만료된 토큰입니다."
    case ACCESS_DENIED => "접근 권한이 없습니다."
    case USER_NOT_FOUND => "사용자를 찾을 수 없습니다."
    case CATEGORY_NOT_FOUND => "카테고리를 찾을 수 없습니다."
    case TRANSACTION_NOT_FOUND => "거래 내역을 찾을 수 없습니다."
    case ACCOUNT_NOT_FOUND => "계좌를 찾을 수 없습니다."
    case CATEGORY_HAS_TRANSACTIONS => "해당 카테고리에 거래가 존재하여 삭제할 수 없습니다."
    case CATEGORY_DUPLICATE_NAME => "이미 존재하는 카테고리 입니다."
    case INTERNAL_ERROR => "서버 내부 오류가 발생했습니다."
    case EXPORT_FAILED => "파일 내보내기에 실패했습니다."
  }

  /** Looks a code string up in the table; the partner of `Code`. */
  function FromCode(c: string): Option<ErrorCode>
  {
    if c == "BAD_REQUEST_001" then Some(INVALID_INPUT)
    else if c == "BAD_REQUEST_002" then Some(DUPLICATE_EMAIL)
    else if c == "BAD_REQUEST_003" then Some(LOGIN_FAILED)
    else if c == "BAD_REQUEST_004" then Some(NEGATIVE_AMOUNT)
    else if c == "BAD_REQUEST_005" then Some(CATEGORY_TYPE_MISMATCH)
    else if c == "BAD_REQUEST_006" then Some(INSUFFICIENT_BALANCE)
    else if c == "BAD_REQUEST_007" then Some(BALANCE_WOULD_BE_NEGATIVE)
    else if c == "UNAUTHORIZED_001" then Some(INVALID_TOKEN)
    else if c == "UNAUTHORIZED_002" then Some(EXPIRED_TOKEN)
    else if c == "FORBIDDEN_001" then Some(ACCESS_DENIED)
    else if c == "NOT_FOUND_001" then Some(USER_NOT_FOUND)
    else if c == "NOT_FOUND_002" then Some(CATEGORY_NOT_FOUND)
    else if c == "NOT_FOUND_003" then Some(TRANSACTION_NOT_FOUND)
    else if c == "NOT_FOUND_004" then Some(ACCOUNT_NOT_FOUND)
    else if c == "CONFLICT_001" then Some(CATEGORY_HAS_TRANSACTIONS)
    else if c == "CONFLICT_002" then Some(CATEGORY_DUPLICATE_NAME)
    else if c == "SERVER_ERROR_001" then Some(INTERNAL_ERROR)
    else if c == "SERVER_ERROR_002" then Some(EXPORT_FAILED)
    else None
  }

  /** Every code string reads back as its own error code. */
  lemma CodeRoundTrip(e: ErrorCode)
    ensures FromCode(Code(e)) == Some(e)
  {
  }

  /** Hence no two error codes share a code string. */
  lemma {:induction false} CodesDistinct(e1: ErrorCode, e2: ErrorCode)
    ensures Code(e1) == Code(e2) ==> e1 == e2
  {
    CodeRoundTrip(e1);
    CodeRoundTrip(e2);
  }

  /** The validation and balance errors of the ledger are all 400 Bad Request. */
  lemma LedgerValidationErrorsAreBadRequest(e: ErrorCode)
    requires e in {NEGATIVE_AMOUNT, CATEGORY_TYPE_MISMATCH, INSUFFICIENT_BALANCE, BALANCE_WOULD_BE_NEGATIVE}
    ensures StatusValue(Status(e)) == 400
  {
  }

  /** Access and token errors: 403 and 401. */
  lemma AuthErrorStatuses()
    ensures StatusValue(Status(ACCESS_DENIED)) == 403
    ensures StatusValue(Status(INVALID_TOKEN)) == 401 && StatusValue(Status(EXPIRED_TOKEN)) == 401
  {
  }

  /** The four lookup failures are 404; the two category conflicts are 409. */
  lemma NotFoundAndConflictStatuses(e: ErrorCode)
    ensures StatusValue(Status(e)) == 404 <==>
      e in {USER_NOT_FOUND, CATEGORY_NOT_FOUND, TRANSACTION_NOT_FOUND, ACCOUNT_NOT_FOUND}
    ensures StatusValue(Status(e)) == 409 <==> e in {CATEGORY_HAS_TRANSACTIONS, CATEGORY_DUPLICATE_NAME}
  {
  }
}
