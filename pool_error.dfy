/** The errors of the pool registry and its four classification predicates. */
module PoolErrors {
  import opened TokenRefresh

  datatype PoolError =
    | PoolNotFound(poolId: string)
    | PoolAlreadyExists(poolId: string)
    | CannotDeleteDefaultPool
    | CredentialNotFound(credentialId: nat)
    | ConfigLoadFailed(reason: string)
    | IoError(message: string)
    | JsonError(message: string)
    | TokenManagerError(message: string)

  predicate IsPoolNotFound(e: PoolError) { e.PoolNotFound? }
  predicate IsPoolAlreadyExists(e: PoolError) { e.PoolAlreadyExists? }
  predicate IsCredentialNotFound(e: PoolError) { e.CredentialNotFound? }
  predicate IsCannotDeleteDefaultPool(e: PoolError) { e.CannotDeleteDefaultPool? }

  /** How many of the four predicates hold. */
  function KindCount(e: PoolError): nat
  {
    (if IsPoolNotFound(e) then 1 else 0) + (if IsPoolAlreadyExists(e) then 1 else 0)
    + (if IsCredentialNotFound(e) then 1 else 0) + (if IsCannotDeleteDefaultPool(e) then 1 else 0)
  }

  /**
   * At most one classification holds for any error, and exactly one holds for the four
   * variants they name.
   */
  lemma ClassificationIsExclusive(e: PoolError)
    ensures KindCount(e) <= 1
    ensures KindCount(e) == 1 <==>
      (e.PoolNotFound? || e.PoolAlreadyExists? || e.CredentialNotFound? || e.CannotDeleteDefaultPool?)
  {
  }

  /** The display text of each error. */
  function PoolErrorText(e: PoolError): (r: string)
    ensures e.CannotDeleteDefaultPool? ==> r == "不能删除默认池"
    ensures e.PoolNotFound? ==> r == "池不存在: " + e.poolId
    ensures e.PoolAlreadyExists? ==> r == "池已存在: " + e.poolId
  {
    match e
    case PoolNotFound(id) => "池不存在: " + id
    case PoolAlreadyExists(id) => "池已存在: " + id
    case CannotDeleteDefaultPool => "不能删除默认池"
    case CredentialNotFound(id) => "凭据不存在: " + NatToDecimal(id)
    case ConfigLoadFailed(reason) => "配置加载失败: " + reason
    case IoError(m) => "IO 错误: " + m
    case JsonError(m) => "JSON 错误: " + m
    case TokenManagerError(m) => "Token 管理器错误: " + m
  }
}
