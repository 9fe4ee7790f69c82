/**
 * The domain knowledge of the e-commerce system (domain_knowledge.py): constant tables of
 * error-code meanings, service dependencies, fault categories with their severity mappings,
 * fault patterns, monitoring recommendations, expert insights and best practices, and the
 * lookups over them. A lookup that misses answers with a default and never fails.
 *
 * Python dictionaries keep insertion order; only the fault categories are searched in order,
 * so they are a sequence and the other tables are maps.
 */
module DomainKnowledge {

  /** One entry of the fault-category table. */
  datatype Category = Category(
    name: string,
    description: string,
    severityMapping: map<string, string>,
    commonCauses: seq<string>,
    typicalSolutions: seq<string>)

  const Unknown: string := "UNKNOWN"

  /** Error codes: 认证相关. */
  const AuthenticationMeanings: map<string, string> := map[
    "INVALID_TOKEN" := "Token校验失败，通常由JWT签名算法不匹配或密钥验证失败导致",
    "MFA_FAIL" := "多因子认证失败，验证码错误或设备不匹配",
    "OAUTH_FAIL" := "OAuth授权失败，授权码失效或平台配置错误",
    "SESSION_FIXATE" := "会话固定攻击检测，需要重置session",
    "BRUTE_FORCE" := "暴力破解攻击检测，需要启用验证码或锁定账户",
    "PASSWORD_EXPIRE" := "密码即将过期，需要提醒用户更新",
    "WEAK_PASSWORD_LIST" := "密码强度不足，包含常见弱密码"
  ]

  /** Error codes: 支付相关. */
  const PaymentMeanings: map<string, string> := map[
    "PAY_CHANNEL_SWITCH" := "支付渠道切换，原渠道故障自动切换",
    "PAY_FEE_CHANGE" := "支付手续费变更，渠道调整费率",
    "PAY_RISK" := "支付风险检测，异常大额支付或可疑行为",
    "PAY_SIGN_REPEAT" := "支付签名重复，可能存在重放攻击",
    "SETTLE_FAIL" := "结算失败，对账不平或渠道问题",
    "REFUND_FEE_MISSING" := "退款手续费缺失，配置错误"
  ]

  /** Error codes: 数据库相关. */
  const DatabaseMeanings: map<string, string> := map[
    "DB_CONNECTION_LOST" := "数据库连接池耗尽，无法获取连接",
    "DB_REPLICA_LAG" := "数据库主从同步延迟，可能影响数据一致性",
    "MASTER_SLAVE_DESYNC" := "主从数据库不同步，需要检查复制状态"
  ]

  /** Error codes: 库存相关. */
  const InventoryMeanings: map<string, string> := map[
    "STOCK_EXPIRE" := "库存过期，商品超过保质期",
    "STOCK_NEGATIVE" := "库存为负，系统库存与实际不符",
    "STOCK_LESS" := "库存少货，实际比系统少",
    "STOCK_FREEZE" := "库存冻结失败，冻结记录冲突",
    "BATCH_STOCK_FAIL" := "批量扣减失败，中间件网络闪断"
  ]

  /** Error codes: 订单相关. */
  const OrderMeanings: map<string, string> := map[
    "ORDER_DOUBLE" := "重复订单，同一秒提交多次",
    "ORDER_TIMEOUT" := "订单创建超时，下游服务响应慢",
    "ORDER_REFUND_DOUBLE" := "重复退款，已退金额超应付",
    "ORDER_STATUS_LAG" := "订单状态滞后，与物流状态不同步"
  ]

  /** Error codes: 系统资源相关. */
  const SystemResourceMeanings: map<string, string> := map[
    "THREAD_STACK_HIGH" := "线程栈使用过高，递归深度超限",
    "MEMORY_SWAP_HIGH" := "交换分区使用过高，内存耗尽",
    "HEAP_ALLOCATION_FAIL" := "堆分配失败，内存不足",
    "DISK_TEMP_HIGH" := "磁盘温度过高，散热故障",
    "CACHE_VALUE_COMPRESSION_FAIL" := "缓存压缩失败，内存不足"
  ]

  /** Error codes: 网络相关. */
  const NetworkMeanings: map<string, string> := map[
    "BACKEND_HEALTH_FAIL" := "后端健康检查失败，服务返回503状态",
    "BACKEND_CONN_DROP" := "后端连接断开，网络不稳定",
    "DNS_FAIL" := "DNS解析失败，域名配置错误",
    "SSL_HANDSHAKE_FAIL" := "SSL握手失败，证书问题"
  ]

  /** Error codes: 日志相关. */
  const LogMeanings: map<string, string> := map[
    "CORRUPTED_LOG" := "日志文件损坏，磁盘写入过程中断电",
    "LOG_ENCODING_ERR" := "日志编码错误，非UTF-8字符",
    "LOG_TAMPER" := "日志被篡改，校验失败",
    "LOG_BUFFER_FULL" := "日志缓冲区满，瞬时峰值"
  ]

  /** Error codes: 缓存相关. */
  const CacheMeanings: map<string, string> := map[
    "CACHE_HIT_DROP" := "缓存命中率下降，性能问题",
    "CACHE_REHASH_SLOW" := "缓存重哈希慢，负载过高",
    "CACHE_TTL_MISS" := "缓存TTL缺失，配置错误"
  ]

  /** Error codes: 消息队列相关. */
  const MessageQueueMeanings: map<string, string> := map[
    "KAFKA_LAG_50W" := "Kafka消费延迟50万条，消费者卡死",
    "MESSAGE_IN_FLIGHT_HIGH" := "在途消息过多，消费者处理能力不足",
    "MESSAGE_BROKER_OOM" := "消息代理内存溢出，需要扩容"
  ]

  /** Error codes: 文件相关. */
  const FileMeanings: map<string, string> := map[
    "FILE_QUARANTINE" := "文件被隔离，安全扫描发现威胁",
    "UPLOAD_FILE_LOCK" := "上传文件被锁定，并发冲突",
    "FILE_SIZE_ZERO" := "文件大小为0，上传失败"
  ]

  /** Error codes: 证书相关. */
  const CertificateMeanings: map<string, string> := map[
    "CERT_EXPIRE_7D" := "证书7天后过期，需要续期",
    "CERT_PRIVATE_KEY_LOST" := "证书私钥丢失，需要重新生成",
    "CERT_REVOKED" := "证书被撤销，需要更新证书"
  ]

  /** Error codes: 配置相关. */
  const ConfigMeanings: map<string, string> := map[
    "CONFIG_JSON_INVALID" := "配置文件JSON格式错误",
    "ROUTE_REDIRECT_LOOP" := "路由重定向循环，配置错误",
    "API_VERSION_UNSUPPORTED" := "API版本不支持，需要升级"
  ]

  /** The meaning of each known error code. */
  const ErrorCodeMeanings: map<string, string> :=
    AuthenticationMeanings + PaymentMeanings + DatabaseMeanings + InventoryMeanings + OrderMeanings
    + SystemResourceMeanings + NetworkMeanings + LogMeanings + CacheMeanings + MessageQueueMeanings
    + FileMeanings + CertificateMeanings + ConfigMeanings

  /** The services each service depends on. */
  const ServiceDependencies: map<string, seq<string>> := map[
    "AuthService" := ["DatabaseService", "CacheService", "NotificationService"],
    "OrderService" := ["AuthService", "PaymentService", "StockService", "NotificationService"],
    "PaymentService" := ["AuthService", "DatabaseService", "NotificationService"],
    "StockService" := ["DatabaseService", "CacheService", "NotificationService"],
    "UserService" := ["AuthService", "DatabaseService", "NotificationService"],
    "CartService" := ["AuthService", "StockService", "DatabaseService"],
    "SearchService" := ["DatabaseService", "CacheService"],
    "GatewayService" := ["AuthService", "OrderService", "PaymentService", "StockService"],
    "LogService" := ["DatabaseService", "FileSystemService"],
    "NotiService" := ["AuthService", "DatabaseService", "SMSService", "EmailService"],
    "EmailService" := ["AuthService", "DatabaseService", "TemplateService"]
  ]

  // The six fault categories, each with the severity its mapping gives each of its codes.

  const AuthenticationSeverity: map<string, string> := map["INVALID_TOKEN" := "HIGH", "MFA_FAIL" := "MEDIUM", "BRUTE_FORCE" := "HIGH", "SESSION_FIXATE" := "HIGH", "OAUTH_FAIL" := "MEDIUM"]

  const AuthenticationCategory: Category := Category("AUTHENTICATION", "认证和授权相关故障", AuthenticationSeverity,
    ["JWT配置错误", "密钥不匹配", "验证码错误", "设备不匹配"],
    ["检查JWT配置", "更新密钥", "重置验证码", "检查设备绑定"])

  const PaymentSeverity: map<string, string> := map["PAY_CHANNEL_SWITCH" := "MEDIUM", "PAY_RISK" := "HIGH", "SETTLE_FAIL" := "HIGH", "PAY_SIGN_REPEAT" := "HIGH"]

  const PaymentCategory: Category := Category("PAYMENT", "支付相关故障", PaymentSeverity,
    ["渠道故障", "风控规则触发", "对账不平", "重放攻击"],
    ["切换支付渠道", "调整风控规则", "重新对账", "检查签名机制"])

  const DatabaseSeverity: map<string, string> := map["DB_CONNECTION_LOST" := "FATAL", "DB_REPLICA_LAG" := "HIGH", "MASTER_SLAVE_DESYNC" := "HIGH"]

  const DatabaseCategory: Category := Category("DATABASE", "数据库相关故障", DatabaseSeverity,
    ["连接池耗尽", "主从延迟", "网络中断", "配置错误"],
    ["增加连接池大小", "检查网络", "重启复制", "修复配置"])

  const InventorySeverity: map<string, string> := map["STOCK_NEGATIVE" := "HIGH", "STOCK_EXPIRE" := "MEDIUM", "STOCK_FREEZE" := "MEDIUM", "BATCH_STOCK_FAIL" := "HIGH"]

  const InventoryCategory: Category := Category("INVENTORY", "库存相关故障", InventorySeverity,
    ["库存计算错误", "商品过期", "并发冲突", "网络闪断"],
    ["重新计算库存", "清理过期商品", "解决并发", "检查网络"])

  const SystemResourceSeverity: map<string, string> := map["THREAD_STACK_HIGH" := "FATAL", "MEMORY_SWAP_HIGH" := "HIGH", "HEAP_ALLOCATION_FAIL" := "FATAL", "DISK_TEMP_HIGH" := "HIGH"]

  const SystemResourceCategory: Category := Category("SYSTEM_RESOURCE", "系统资源相关故障", SystemResourceSeverity,
    ["递归过深", "内存泄漏", "堆溢出", "散热故障"],
    ["优化递归", "检查内存泄漏", "增加内存", "改善散热"])

  const NetworkSeverity: map<string, string> := map["BACKEND_HEALTH_FAIL" := "HIGH", "BACKEND_CONN_DROP" := "HIGH", "DNS_FAIL" := "HIGH", "SSL_HANDSHAKE_FAIL" := "HIGH"]

  const NetworkCategory: Category := Category("NETWORK", "网络相关故障", NetworkSeverity,
    ["服务宕机", "网络中断", "DNS错误", "证书问题"],
    ["重启服务", "检查网络", "修复DNS", "更新证书"])

  /** The fault categories, in the order the search visits them. */
  const FaultCategories: seq<Category> := [
    AuthenticationCategory, PaymentCategory, DatabaseCategory,
    InventoryCategory, SystemResourceCategory, NetworkCategory
  ]

  /** The common fault patterns: symptoms, root causes, actions, fixes and prevention. */
  const CommonPatterns: map<string, map<string, seq<string>>> := map[
    "连接池耗尽" := map[
      "symptoms" := ["DB_CONNECTION_LOST", "连接超时", "无法获取连接"],
      "root_causes" := ["连接泄漏", "连接数配置过小", "长时间事务"],
      "immediate_actions" := ["重启服务", "增加连接池大小", "检查连接泄漏"],
      "long_term_fixes" := ["优化连接管理", "调整连接池配置", "代码审查"],
      "prevention" := ["连接池监控", "定期检查", "代码规范"]
    ],
    "认证失败" := map[
      "symptoms" := ["INVALID_TOKEN", "MFA_FAIL", "OAUTH_FAIL"],
      "root_causes" := ["JWT配置错误", "密钥不匹配", "验证码错误"],
      "immediate_actions" := ["检查JWT配置", "更新密钥", "重置验证码"],
      "long_term_fixes" := ["统一认证配置", "密钥轮换机制", "多因子认证"],
      "prevention" := ["配置管理", "密钥管理", "安全审计"]
    ],
    "库存不一致" := map[
      "symptoms" := ["STOCK_NEGATIVE", "STOCK_LESS", "STOCK_DIFF"],
      "root_causes" := ["并发冲突", "计算错误", "数据同步问题"],
      "immediate_actions" := ["重新计算库存", "锁定库存操作", "检查数据"],
      "long_term_fixes" := ["优化并发控制", "改进计算逻辑", "数据同步"],
      "prevention" := ["库存监控", "定期盘点", "并发测试"]
    ],
    "支付异常" := map[
      "symptoms" := ["PAY_RISK", "SETTLE_FAIL", "PAY_SIGN_REPEAT"],
      "root_causes" := ["风控规则", "对账不平", "重放攻击"],
      "immediate_actions" := ["调整风控", "重新对账", "检查签名"],
      "long_term_fixes" := ["优化风控", "改进对账", "防重放机制"],
      "prevention" := ["风控监控", "对账监控", "安全审计"]
    ]
  ]

  /** The monitoring recommendations of each category. */
  const MonitoringRecommendations: map<string, seq<string>> := map[
    "AUTHENTICATION" := ["监控认证失败率", "监控JWT过期情况", "监控异常登录行为", "监控多因子认证成功率"],
    "PAYMENT" := ["监控支付成功率", "监控支付渠道健康状态", "监控风控规则触发情况", "监控对账差异"],
    "DATABASE" := ["监控数据库连接数", "监控主从同步延迟", "监控慢查询", "监控数据库性能指标"],
    "INVENTORY" := ["监控库存变化", "监控库存异常", "监控库存操作延迟", "监控库存一致性"],
    "SYSTEM_RESOURCE" := ["监控内存使用率", "监控CPU使用率", "监控磁盘空间", "监控网络延迟"],
    "NETWORK" := ["监控服务健康状态", "监控网络连接", "监控DNS解析", "监控SSL证书状态"]
  ]

  /** Expert insights, standards and practices for some fault patterns. */
  const ExpertEnhancedPatterns: map<string, map<string, seq<string>>> := map[
    "数据库连接池耗尽" := map[
      "expert_insights" := ["根据AWS和Google Cloud的最佳实践，连接池大小应设置为CPU核心数的2-4倍", "连接泄漏是导致池耗尽的主要原因，建议使用连接池监控工具", "长时间运行的事务会占用连接，建议设置事务超时时间"],
      "industry_standards" := ["HikariCP推荐最大连接数不超过200", "MySQL官方建议最大连接数不超过1000", "PostgreSQL推荐连接数不超过100"],
      "monitoring_metrics" := ["活跃连接数", "连接等待时间", "连接获取失败率", "连接池使用率"]
    ],
    "认证失败" := map[
      "expert_insights" := ["JWT令牌过期是认证失败的主要原因，建议设置合理的过期时间", "多因子认证失败通常由时间同步问题导致，建议使用NTP同步", "OAuth授权失败多由重定向URI不匹配引起"],
      "security_best_practices" := ["实施零信任安全模型", "使用强密码策略和密码轮换", "启用审计日志记录所有认证事件", "实施账户锁定机制防止暴力破解"],
      "compliance_requirements" := ["GDPR要求用户数据保护", "PCI DSS要求支付数据安全", "SOX要求审计跟踪"]
    ],
    "支付异常" := map[
      "expert_insights" := ["支付风控系统应基于机器学习和规则引擎", "重复支付检测需要基于订单ID和时间窗口", "支付渠道故障应自动切换到备用渠道"],
      "financial_compliance" := ["PCI DSS Level 1认证要求", "反洗钱(AML)监控要求", "KYC(了解你的客户)验证要求"],
      "risk_management" := ["实时风险评估", "异常交易检测", "欺诈模式识别", "风险评分模型"]
    ]
  ]

  /** Industry best practices, by area and topic. */
  const IndustryBestPractices: map<string, map<string, seq<string>>> := map[
    "微服务架构" := map[
      "故障隔离" := ["使用断路器模式防止级联故障", "实施超时和重试机制", "使用熔断器保护下游服务"],
      "监控和可观测性" := ["实施分布式链路追踪", "使用指标监控(如Prometheus)", "集中化日志管理(如ELK Stack)"],
      "服务发现" := ["使用服务注册中心", "实施健康检查机制", "支持服务版本管理"]
    ],
    "数据库管理" := map[
      "连接管理" := ["使用连接池管理数据库连接", "实施读写分离", "使用数据库代理"],
      "性能优化" := ["定期分析慢查询", "优化索引策略", "使用查询缓存"],
      "高可用性" := ["实施主从复制", "使用数据库集群", "实施自动故障转移"]
    ],
    "安全最佳实践" := map[
      "认证授权" := ["实施多因子认证", "使用OAuth 2.0和OpenID Connect", "实施基于角色的访问控制(RBAC)"],
      "数据保护" := ["数据加密传输和存储", "实施数据脱敏", "定期安全审计"],
      "威胁防护" := ["实施Web应用防火墙", "使用入侵检测系统", "定期漏洞扫描"]
    ]
  ]

  /** `dict.get(key, default)`. */
  function Get<K, V>(m: map<K, V>, key: K, default: V): (r: V)
    ensures key in m ==> r == m[key]
    ensures key !in m ==> r == default
  {
    if key in m then m[key] else default
  }

  /** `get_error_code_meaning`: the table entry, or "未知错误码: " followed by the code. */
  function ErrorCodeMeaning(code: string): (r: string)
    ensures code in ErrorCodeMeanings ==> r == ErrorCodeMeanings[code]
    ensures code !in ErrorCodeMeanings ==> r == "未知错误码: " + code
  {
    Get(ErrorCodeMeanings, code, "未知错误码: " + code)
  }

  /** `get_service_dependencies`: the listed dependencies, or none for an unknown service. */
  function ServiceDependenciesOf(service: string): (r: seq<string>)
    ensures service in ServiceDependencies ==> r == ServiceDependencies[service]
    ensures service !in ServiceDependencies ==> r == []
  {
    Get(ServiceDependencies, service, [])
  }

  /** The index of the first category, from `k` on, whose severity mapping lists `code`;
      `|FaultCategories|` when none does. */
  function FirstCategoryFrom(code: string, k: nat): (i: nat)
    requires k <= |FaultCategories|
    ensures k <= i <= |FaultCategories|
    ensures i < |FaultCategories| ==> code in FaultCategories[i].severityMapping
    ensures forall j :: k <= j < i ==> code !in FaultCategories[j].severityMapping
    decreases |FaultCategories| - k
  {
    if k == |FaultCategories| then k
    else if code in FaultCategories[k].severityMapping then k
    else FirstCategoryFrom(code, k + 1)
  }

  /** `get_fault_category`: the name of the first category whose severity mapping lists the
      code, "UNKNOWN" when none does. */
  function FaultCategoryOf(code: string): (r: string)
    ensures r == Unknown <==> forall j :: 0 <= j < |FaultCategories| ==> code !in FaultCategories[j].severityMapping
    ensures r != Unknown ==>
      exists j :: 0 <= j < |FaultCategories| && r == FaultCategories[j].name && code in FaultCategories[j].severityMapping
  {
    var i := FirstCategoryFrom(code, 0);
    CategoryNamesKnown();
    if i < |FaultCategories| then FaultCategories[i].name else Unknown
  }

  /** `get_severity_level`: the severity the first category listing the code gives it,
      "UNKNOWN" when no category lists it. */
  function SeverityLevel(code: string): (r: string)
    ensures r == Unknown <==> forall j :: 0 <= j < |FaultCategories| ==> code !in FaultCategories[j].severityMapping
  {
    var i := FirstCategoryFrom(code, 0);
    SeveritiesKnown();
    if i < |FaultCategories| then FaultCategories[i].severityMapping[code] else Unknown
  }

  /** No category is named "UNKNOWN". */
  lemma CategoryNamesKnown()
    ensures forall j :: 0 <= j < |FaultCategories| ==> FaultCategories[j].name != Unknown
  {
  }

  /** No severity mapping gives "UNKNOWN". */
  lemma SeveritiesKnown()
    ensures forall j, c :: 0 <= j < |FaultCategories| && c in FaultCategories[j].severityMapping ==>
      FaultCategories[j].severityMapping[c] != Unknown
  {
    forall j, c | 0 <= j < |FaultCategories| && c in FaultCategories[j].severityMapping
      ensures FaultCategories[j].severityMapping[c] != Unknown
    {
      if j == 0 {
        AuthenticationSeveritiesKnown();
      } else if j == 1 {
        PaymentSeveritiesKnown();
      } else if j == 2 {
        DatabaseSeveritiesKnown();
      } else if j == 3 {
        InventorySeveritiesKnown();
      } else if j == 4 {
        SystemResourceSeveritiesKnown();
      } else {
        NetworkSeveritiesKnown();
      }
    }
  }

  // No entry of a severity table is "UNKNOWN".

  lemma AuthenticationSeveritiesKnown() ensures forall c :: c in AuthenticationSeverity ==> AuthenticationSeverity[c] != Unknown { }

  lemma PaymentSeveritiesKnown() ensures forall c :: c in PaymentSeverity ==> PaymentSeverity[c] != Unknown { }

  lemma DatabaseSeveritiesKnown() ensures forall c :: c in DatabaseSeverity ==> DatabaseSeverity[c] != Unknown { }

  lemma InventorySeveritiesKnown() ensures forall c :: c in InventorySeverity ==> InventorySeverity[c] != Unknown { }

  lemma SystemResourceSeveritiesKnown() ensures forall c :: c in SystemResourceSeverity ==> SystemResourceSeverity[c] != Unknown { }

  lemma NetworkSeveritiesKnown() ensures forall c :: c in NetworkSeverity ==> NetworkSeverity[c] != Unknown { }

  /** `get_common_pattern_info`: the pattern's table, or an empty one. */
  function CommonPatternInfo(pattern: string): (r: map<string, seq<string>>)
    ensures pattern in CommonPatterns ==> r == CommonPatterns[pattern]
    ensures pattern !in CommonPatterns ==> r == map[]
  {
    Get(CommonPatterns, pattern, map[])
  }

  /** `get_monitoring_recommendations`: the category's list, or none. */
  function MonitoringRecommendationsOf(category: string): (r: seq<string>)
    ensures category in MonitoringRecommendations ==> r == MonitoringRecommendations[category]
    ensures category !in MonitoringRecommendations ==> r == []
  {
    Get(MonitoringRecommendations, category, [])
  }

  /** `get_expert_insights`: the "expert_insights" list of the pattern, or none when the
      pattern or the list is missing. */
  function ExpertInsights(pattern: string): (r: seq<string>)
    ensures pattern in ExpertEnhancedPatterns && "expert_insights" in ExpertEnhancedPatterns[pattern] ==>
      r == ExpertEnhancedPatterns[pattern]["expert_insights"]
    ensures pattern in ExpertEnhancedPatterns && "expert_insights" !in ExpertEnhancedPatterns[pattern] ==> r == []
    ensures pattern !in ExpertEnhancedPatterns ==> r == []
  {
    Get(Get(ExpertEnhancedPatterns, pattern, map[]), "expert_insights", [])
  }

  /** `get_industry_standards`: the "industry_standards" list of the pattern, or none when the
      pattern or the list is missing. */
  function IndustryStandards(pattern: string): (r: seq<string>)
    ensures pattern in ExpertEnhancedPatterns && "industry_standards" in ExpertEnhancedPatterns[pattern] ==>
      r == ExpertEnhancedPatterns[pattern]["industry_standards"]
    ensures pattern in ExpertEnhancedPatterns && "industry_standards" !in ExpertEnhancedPatterns[pattern] ==> r == []
    ensures pattern !in ExpertEnhancedPatterns ==> r == []
  {
    Get(Get(ExpertEnhancedPatterns, pattern, map[]), "industry_standards", [])
  }

  /** `get_best_practices`: the area's topics, or an empty table for an unknown area. */
  function BestPractices(area: string): (r: map<string, seq<string>>)
    ensures area in IndustryBestPractices ==> r == IndustryBestPractices[area]
    ensures area !in IndustryBestPractices ==> r == map[]
  {
    Get(IndustryBestPractices, area, map[])
  }

  /** No error code is listed by two categories, so the first-match search has only one
      possible answer. */
  lemma CategoriesDisjoint()
    ensures forall i, j, c :: 0 <= i < j < |FaultCategories| && c in FaultCategories[i].severityMapping ==>
      c !in FaultCategories[j].severityMapping
  {
    forall i, j | 0 <= i < j < |FaultCategories|
      ensures FaultCategories[i].severityMapping.Keys !! FaultCategories[j].severityMapping.Keys
    {
      SeverityKeysDisjoint(i, j);
    }
  }

  /** The severity mappings of two different categories share no code. */
  lemma SeverityKeysDisjoint(i: nat, j: nat)
    requires i < j < |FaultCategories|
    ensures FaultCategories[i].severityMapping.Keys !! FaultCategories[j].severityMapping.Keys
  {
    if i == 0 && j == 1 { AuthenticationPaymentDisjoint(); }
    else if i == 0 && j == 2 { AuthenticationDatabaseDisjoint(); }
    else if i == 0 && j == 3 { AuthenticationInventoryDisjoint(); }
    else if i == 0 && j == 4 { AuthenticationSystemResourceDisjoint(); }
    else if i == 0 && j == 5 { AuthenticationNetworkDisjoint(); }
    else if i == 1 && j == 2 { PaymentDatabaseDisjoint(); }
    else if i == 1 && j == 3 { PaymentInventoryDisjoint(); }
    else if i == 1 && j == 4 { PaymentSystemResourceDisjoint(); }
    else if i == 1 && j == 5 { PaymentNetworkDisjoint(); }
    else if i == 2 && j == 3 { DatabaseInventoryDisjoint(); }
    else if i == 2 && j == 4 { DatabaseSystemResourceDisjoint(); }
    else if i == 2 && j == 5 { DatabaseNetworkDisjoint(); }
    else if i == 3 && j == 4 { InventorySystemResourceDisjoint(); }
    else if i == 3 && j == 5 { InventoryNetworkDisjoint(); }
    else { SystemResourceNetworkDisjoint(); }
  }

  // Pairwise, the severity mappings of the six categories share no code.

  lemma AuthenticationPaymentDisjoint() ensures AuthenticationSeverity.Keys !! PaymentSeverity.Keys { }

  lemma AuthenticationDatabaseDisjoint() ensures AuthenticationSeverity.Keys !! DatabaseSeverity.Keys { }

  lemma AuthenticationInventoryDisjoint() ensures AuthenticationSeverity.Keys !! InventorySeverity.Keys { }

  lemma AuthenticationSystemResourceDisjoint() ensures AuthenticationSeverity.Keys !! SystemResourceSeverity.Keys { }

  lemma AuthenticationNetworkDisjoint() ensures AuthenticationSeverity.Keys !! NetworkSeverity.Keys { }

  lemma PaymentDatabaseDisjoint() ensures PaymentSeverity.Keys !! DatabaseSeverity.Keys { }

  lemma PaymentInventoryDisjoint() ensures PaymentSeverity.Keys !! InventorySeverity.Keys { }

  lemma PaymentSystemResourceDisjoint() ensures PaymentSeverity.Keys !! SystemResourceSeverity.Keys { }

  lemma PaymentNetworkDisjoint() ensures PaymentSeverity.Keys !! NetworkSeverity.Keys { }

  lemma DatabaseInventoryDisjoint() ensures DatabaseSeverity.Keys !! InventorySeverity.Keys { }

  lemma DatabaseSystemResourceDisjoint() ensures DatabaseSeverity.Keys !! SystemResourceSeverity.Keys { }

  lemma DatabaseNetworkDisjoint() ensures DatabaseSeverity.Keys !! NetworkSeverity.Keys { }

  lemma InventorySystemResourceDisjoint() ensures InventorySeverity.Keys !! SystemResourceSeverity.Keys { }

  lemma InventoryNetworkDisjoint() ensures InventorySeverity.Keys !! NetworkSeverity.Keys { }

  lemma SystemResourceNetworkDisjoint() ensures SystemResourceSeverity.Keys !! NetworkSeverity.Keys { }

  /** The category listing a code is the one `get_fault_category` names, and
      `get_severity_level` gives the severity that category maps it to. */
  lemma OwnerCategory(code: string, i: nat)
    requires i < |FaultCategories| && code in FaultCategories[i].severityMapping
    ensures FaultCategoryOf(code) == FaultCategories[i].name
    ensures SeverityLevel(code) == FaultCategories[i].severityMapping[code]
  {
    CategoriesDisjoint();
  }

  /** `get_severity_level` says "UNKNOWN" exactly when `get_fault_category` does. */
  lemma SeverityUnknownIffCategoryUnknown(code: string)
    ensures SeverityLevel(code) == Unknown <==> FaultCategoryOf(code) == Unknown
  {
  }

  /** Every code of `group` has the same meaning in the merged table. */
  predicate KeptInMeanings(group: map<string, string>) {
    forall code :: code in group ==> code in ErrorCodeMeanings && ErrorCodeMeanings[code] == group[code]
  }

  /** Each of the thirteen groups is part of the merged table with its own meanings: no later
      group lists one of its codes again and overrides it. */
  lemma GroupMeaningsMerged()
    ensures KeptInMeanings(AuthenticationMeanings)
    ensures KeptInMeanings(PaymentMeanings)
    ensures KeptInMeanings(DatabaseMeanings)
    ensures KeptInMeanings(InventoryMeanings)
    ensures KeptInMeanings(OrderMeanings)
    ensures KeptInMeanings(SystemResourceMeanings)
    ensures KeptInMeanings(NetworkMeanings)
    ensures KeptInMeanings(LogMeanings)
    ensures KeptInMeanings(CacheMeanings)
    ensures KeptInMeanings(MessageQueueMeanings)
    ensures KeptInMeanings(FileMeanings)
    ensures KeptInMeanings(CertificateMeanings)
    ensures KeptInMeanings(ConfigMeanings)
  {
    AuthenticationMeaningsKept();
    PaymentMeaningsKept();
    DatabaseMeaningsKept();
    InventoryMeaningsKept();
    OrderMeaningsKept();
    SystemResourceMeaningsKept();
    NetworkMeaningsKept();
    LogMeaningsKept();
    CacheMeaningsKept();
    MessageQueueMeaningsKept();
    FileMeaningsKept();
    CertificateMeaningsKept();
    ConfigMeaningsKept();
  }

  // Each group keeps its meanings, since it shares no code with the groups merged after it.

  lemma AuthenticationMeaningsKept() ensures KeptInMeanings(AuthenticationMeanings) {
    AuthenticationPaymentMeaningsDisjoint();
    AuthenticationDatabaseMeaningsDisjoint();
    AuthenticationInventoryMeaningsDisjoint();
    AuthenticationOrderMeaningsDisjoint();
    AuthenticationSystemResourceMeaningsDisjoint();
    AuthenticationNetworkMeaningsDisjoint();
    AuthenticationLogMeaningsDisjoint();
    AuthenticationCacheMeaningsDisjoint();
    AuthenticationMessageQueueMeaningsDisjoint();
    AuthenticationFileMeaningsDisjoint();
    AuthenticationCertificateMeaningsDisjoint();
    AuthenticationConfigMeaningsDisjoint();
  }

  lemma PaymentMeaningsKept() ensures KeptInMeanings(PaymentMeanings) {
    PaymentDatabaseMeaningsDisjoint();
    PaymentInventoryMeaningsDisjoint();
    PaymentOrderMeaningsDisjoint();
    PaymentSystemResourceMeaningsDisjoint();
    PaymentNetworkMeaningsDisjoint();
    PaymentLogMeaningsDisjoint();
    PaymentCacheMeaningsDisjoint();
    PaymentMessageQueueMeaningsDisjoint();
    PaymentFileMeaningsDisjoint();
    PaymentCertificateMeaningsDisjoint();
    PaymentConfigMeaningsDisjoint();
  }

  lemma DatabaseMeaningsKept() ensures KeptInMeanings(DatabaseMeanings) {
    DatabaseInventoryMeaningsDisjoint();
    DatabaseOrderMeaningsDisjoint();
    DatabaseSystemResourceMeaningsDisjoint();
    DatabaseNetworkMeaningsDisjoint();
    DatabaseLogMeaningsDisjoint();
    DatabaseCacheMeaningsDisjoint();
    DatabaseMessageQueueMeaningsDisjoint();
    DatabaseFileMeaningsDisjoint();
    DatabaseCertificateMeaningsDisjoint();
    DatabaseConfigMeaningsDisjoint();
  }

  lemma InventoryMeaningsKept() ensures KeptInMeanings(InventoryMeanings) {
    InventoryOrderMeaningsDisjoint();
    InventorySystemResourceMeaningsDisjoint();
    InventoryNetworkMeaningsDisjoint();
    InventoryLogMeaningsDisjoint();
    InventoryCacheMeaningsDisjoint();
    InventoryMessageQueueMeaningsDisjoint();
    InventoryFileMeaningsDisjoint();
    InventoryCertificateMeaningsDisjoint();
    InventoryConfigMeaningsDisjoint();
  }

  lemma OrderMeaningsKept() ensures KeptInMeanings(OrderMeanings) {
    OrderSystemResourceMeaningsDisjoint();
    OrderNetworkMeaningsDisjoint();
    OrderLogMeaningsDisjoint();
    OrderCacheMeaningsDisjoint();
    OrderMessageQueueMeaningsDisjoint();
    OrderFileMeaningsDisjoint();
    OrderCertificateMeaningsDisjoint();
    OrderConfigMeaningsDisjoint();
  }

  lemma SystemResourceMeaningsKept() ensures KeptInMeanings(SystemResourceMeanings) {
    SystemResourceNetworkMeaningsDisjoint();
    SystemResourceLogMeaningsDisjoint();
    SystemResourceCacheMeaningsDisjoint();
    SystemResourceMessageQueueMeaningsDisjoint();
    SystemResourceFileMeaningsDisjoint();
    SystemResourceCertificateMeaningsDisjoint();
    SystemResourceConfigMeaningsDisjoint();
  }

  lemma NetworkMeaningsKept() ensures KeptInMeanings(NetworkMeanings) {
    NetworkLogMeaningsDisjoint();
    NetworkCacheMeaningsDisjoint();
    NetworkMessageQueueMeaningsDisjoint();
    NetworkFileMeaningsDisjoint();
    NetworkCertificateMeaningsDisjoint();
    NetworkConfigMeaningsDisjoint();
  }

  lemma LogMeaningsKept() ensures KeptInMeanings(LogMeanings) {
    LogCacheMeaningsDisjoint();
    LogMessageQueueMeaningsDisjoint();
    LogFileMeaningsDisjoint();
    LogCertificateMeaningsDisjoint();
    LogConfigMeaningsDisjoint();
  }

  lemma CacheMeaningsKept() ensures KeptInMeanings(CacheMeanings) {
    CacheMessageQueueMeaningsDisjoint();
    CacheFileMeaningsDisjoint();
    CacheCertificateMeaningsDisjoint();
    CacheConfigMeaningsDisjoint();
  }

  lemma MessageQueueMeaningsKept() ensures KeptInMeanings(MessageQueueMeanings) {
    MessageQueueFileMeaningsDisjoint();
    MessageQueueCertificateMeaningsDisjoint();
    MessageQueueConfigMeaningsDisjoint();
  }

  lemma FileMeaningsKept() ensures KeptInMeanings(FileMeanings) {
    FileCertificateMeaningsDisjoint();
    FileConfigMeaningsDisjoint();
  }

  lemma CertificateMeaningsKept() ensures KeptInMeanings(CertificateMeanings) {
    CertificateConfigMeaningsDisjoint();
  }

  lemma ConfigMeaningsKept() ensures KeptInMeanings(ConfigMeanings) {
  }

  // Pairwise, the thirteen groups share no code.

  lemma AuthenticationPaymentMeaningsDisjoint() ensures AuthenticationMeanings.Keys !! PaymentMeanings.Keys { }

  lemma AuthenticationDatabaseMeaningsDisjoint() ensures AuthenticationMeanings.Keys !! DatabaseMeanings.Keys { }

  lemma AuthenticationInventoryMeaningsDisjoint() ensures AuthenticationMeanings.Keys !! InventoryMeanings.Keys { }

  lemma AuthenticationOrderMeaningsDisjoint() ensures AuthenticationMeanings.Keys !! OrderMeanings.Keys { }

  lemma AuthenticationSystemResourceMeaningsDisjoint() ensures AuthenticationMeanings.Keys !! SystemResourceMeanings.Keys { }

  lemma AuthenticationNetworkMeaningsDisjoint() ensures AuthenticationMeanings.Keys !! NetworkMeanings.Keys { }

  lemma AuthenticationLogMeaningsDisjoint() ensures AuthenticationMeanings.Keys !! LogMeanings.Keys { }

  lemma AuthenticationCacheMeaningsDisjoint() ensures AuthenticationMeanings.Keys !! CacheMeanings.Keys { }

  lemma AuthenticationMessageQueueMeaningsDisjoint() ensures AuthenticationMeanings.Keys !! MessageQueueMeanings.Keys { }

  lemma AuthenticationFileMeaningsDisjoint() ensures AuthenticationMeanings.Keys !! FileMeanings.Keys { }

  lemma AuthenticationCertificateMeaningsDisjoint() ensures AuthenticationMeanings.Keys !! CertificateMeanings.Keys { }

  lemma AuthenticationConfigMeaningsDisjoint() ensures AuthenticationMeanings.Keys !! ConfigMeanings.Keys { }

  lemma PaymentDatabaseMeaningsDisjoint() ensures PaymentMeanings.Keys !! DatabaseMeanings.Keys { }

  lemma PaymentInventoryMeaningsDisjoint() ensures PaymentMeanings.Keys !! InventoryMeanings.Keys { }

  lemma PaymentOrderMeaningsDisjoint() ensures PaymentMeanings.Keys !! OrderMeanings.Keys { }

  lemma PaymentSystemResourceMeaningsDisjoint() ensures PaymentMeanings.Keys !! SystemResourceMeanings.Keys { }

  lemma PaymentNetworkMeaningsDisjoint() ensures PaymentMeanings.Keys !! NetworkMeanings.Keys { }

  lemma PaymentLogMeaningsDisjoint() ensures PaymentMeanings.Keys !! LogMeanings.Keys { }

  lemma PaymentCacheMeaningsDisjoint() ensures PaymentMeanings.Keys !! CacheMeanings.Keys { }

  lemma PaymentMessageQueueMeaningsDisjoint() ensures PaymentMeanings.Keys !! MessageQueueMeanings.Keys { }

  lemma PaymentFileMeaningsDisjoint() ensures PaymentMeanings.Keys !! FileMeanings.Keys { }

  lemma PaymentCertificateMeaningsDisjoint() ensures PaymentMeanings.Keys !! CertificateMeanings.Keys { }

  lemma PaymentConfigMeaningsDisjoint() ensures PaymentMeanings.Keys !! ConfigMeanings.Keys { }

  lemma DatabaseInventoryMeaningsDisjoint() ensures DatabaseMeanings.Keys !! InventoryMeanings.Keys { }

  lemma DatabaseOrderMeaningsDisjoint() ensures DatabaseMeanings.Keys !! OrderMeanings.Keys { }

  lemma DatabaseSystemResourceMeaningsDisjoint() ensures DatabaseMeanings.Keys !! SystemResourceMeanings.Keys { }

  lemma DatabaseNetworkMeaningsDisjoint() ensures DatabaseMeanings.Keys !! NetworkMeanings.Keys { }

  lemma DatabaseLogMeaningsDisjoint() ensures DatabaseMeanings.Keys !! LogMeanings.Keys { }

  lemma DatabaseCacheMeaningsDisjoint() ensures DatabaseMeanings.Keys !! CacheMeanings.Keys { }

  lemma DatabaseMessageQueueMeaningsDisjoint() ensures DatabaseMeanings.Keys !! MessageQueueMeanings.Keys { }

  lemma DatabaseFileMeaningsDisjoint() ensures DatabaseMeanings.Keys !! FileMeanings.Keys { }

  lemma DatabaseCertificateMeaningsDisjoint() ensures DatabaseMeanings.Keys !! CertificateMeanings.Keys { }

  lemma DatabaseConfigMeaningsDisjoint() ensures DatabaseMeanings.Keys !! ConfigMeanings.Keys { }

  lemma InventoryOrderMeaningsDisjoint() ensures InventoryMeanings.Keys !! OrderMeanings.Keys { }

  lemma InventorySystemResourceMeaningsDisjoint() ensures InventoryMeanings.Keys !! SystemResourceMeanings.Keys { }

  lemma InventoryNetworkMeaningsDisjoint() ensures InventoryMeanings.Keys !! NetworkMeanings.Keys { }

  lemma InventoryLogMeaningsDisjoint() ensures InventoryMeanings.Keys !! LogMeanings.Keys { }

  lemma InventoryCacheMeaningsDisjoint() ensures InventoryMeanings.Keys !! CacheMeanings.Keys { }

  lemma InventoryMessageQueueMeaningsDisjoint() ensures InventoryMeanings.Keys !! MessageQueueMeanings.Keys { }

  lemma InventoryFileMeaningsDisjoint() ensures InventoryMeanings.Keys !! FileMeanings.Keys { }

  lemma InventoryCertificateMeaningsDisjoint() ensures InventoryMeanings.Keys !! CertificateMeanings.Keys { }

  lemma InventoryConfigMeaningsDisjoint() ensures InventoryMeanings.Keys !! ConfigMeanings.Keys { }

  lemma OrderSystemResourceMeaningsDisjoint() ensures OrderMeanings.Keys !! SystemResourceMeanings.Keys { }

  lemma OrderNetworkMeaningsDisjoint() ensures OrderMeanings.Keys !! NetworkMeanings.Keys { }

  lemma OrderLogMeaningsDisjoint() ensures OrderMeanings.Keys !! LogMeanings.Keys { }

  lemma OrderCacheMeaningsDisjoint() ensures OrderMeanings.Keys !! CacheMeanings.Keys { }

  lemma OrderMessageQueueMeaningsDisjoint() ensures OrderMeanings.Keys !! MessageQueueMeanings.Keys { }

  lemma OrderFileMeaningsDisjoint() ensures OrderMeanings.Keys !! FileMeanings.Keys { }

  lemma OrderCertificateMeaningsDisjoint() ensures OrderMeanings.Keys !! CertificateMeanings.Keys { }

  lemma OrderConfigMeaningsDisjoint() ensures OrderMeanings.Keys !! ConfigMeanings.Keys { }

  lemma SystemResourceNetworkMeaningsDisjoint() ensures SystemResourceMeanings.Keys !! NetworkMeanings.Keys { }

  lemma SystemResourceLogMeaningsDisjoint() ensures SystemResourceMeanings.Keys !! LogMeanings.Keys { }

  lemma SystemResourceCacheMeaningsDisjoint() ensures SystemResourceMeanings.Keys !! CacheMeanings.Keys { }

  lemma SystemResourceMessageQueueMeaningsDisjoint() ensures SystemResourceMeanings.Keys !! MessageQueueMeanings.Keys { }

  lemma SystemResourceFileMeaningsDisjoint() ensures SystemResourceMeanings.Keys !! FileMeanings.Keys { }

  lemma SystemResourceCertificateMeaningsDisjoint() ensures SystemResourceMeanings.Keys !! CertificateMeanings.Keys { }

  lemma SystemResourceConfigMeaningsDisjoint() ensures SystemResourceMeanings.Keys !! ConfigMeanings.Keys { }

  lemma NetworkLogMeaningsDisjoint() ensures NetworkMeanings.Keys !! LogMeanings.Keys { }

  lemma NetworkCacheMeaningsDisjoint() ensures NetworkMeanings.Keys !! CacheMeanings.Keys { }

  lemma NetworkMessageQueueMeaningsDisjoint() ensures NetworkMeanings.Keys !! MessageQueueMeanings.Keys { }

  lemma NetworkFileMeaningsDisjoint() ensures NetworkMeanings.Keys !! FileMeanings.Keys { }

  lemma NetworkCertificateMeaningsDisjoint() ensures NetworkMeanings.Keys !! CertificateMeanings.Keys { }

  lemma NetworkConfigMeaningsDisjoint() ensures NetworkMeanings.Keys !! ConfigMeanings.Keys { }

  lemma LogCacheMeaningsDisjoint() ensures LogMeanings.Keys !! CacheMeanings.Keys { }

  lemma LogMessageQueueMeaningsDisjoint() ensures LogMeanings.Keys !! MessageQueueMeanings.Keys { }

  lemma LogFileMeaningsDisjoint() ensures LogMeanings.Keys !! FileMeanings.Keys { }

  lemma LogCertificateMeaningsDisjoint() ensures LogMeanings.Keys !! CertificateMeanings.Keys { }

  lemma LogConfigMeaningsDisjoint() ensures LogMeanings.Keys !! ConfigMeanings.Keys { }

  lemma CacheMessageQueueMeaningsDisjoint() ensures CacheMeanings.Keys !! MessageQueueMeanings.Keys { }

  lemma CacheFileMeaningsDisjoint() ensures CacheMeanings.Keys !! FileMeanings.Keys { }

  lemma CacheCertificateMeaningsDisjoint() ensures CacheMeanings.Keys !! CertificateMeanings.Keys { }

  lemma CacheConfigMeaningsDisjoint() ensures CacheMeanings.Keys !! ConfigMeanings.Keys { }

  lemma MessageQueueFileMeaningsDisjoint() ensures MessageQueueMeanings.Keys !! FileMeanings.Keys { }

  lemma MessageQueueCertificateMeaningsDisjoint() ensures MessageQueueMeanings.Keys !! CertificateMeanings.Keys { }

  lemma MessageQueueConfigMeaningsDisjoint() ensures MessageQueueMeanings.Keys !! ConfigMeanings.Keys { }

  lemma FileCertificateMeaningsDisjoint() ensures FileMeanings.Keys !! CertificateMeanings.Keys { }

  lemma FileConfigMeaningsDisjoint() ensures FileMeanings.Keys !! ConfigMeanings.Keys { }

  lemma CertificateConfigMeaningsDisjoint() ensures CertificateMeanings.Keys !! ConfigMeanings.Keys { }
  // Each category's codes are among the meanings of its group.

  lemma AuthenticationCodesHaveMeanings() ensures AuthenticationSeverity.Keys <= AuthenticationMeanings.Keys { }

  lemma PaymentCodesHaveMeanings() ensures PaymentSeverity.Keys <= PaymentMeanings.Keys { }

  lemma DatabaseCodesHaveMeanings() ensures DatabaseSeverity.Keys <= DatabaseMeanings.Keys { }

  lemma InventoryCodesHaveMeanings() ensures InventorySeverity.Keys <= InventoryMeanings.Keys { }

  lemma SystemResourceCodesHaveMeanings() ensures SystemResourceSeverity.Keys <= SystemResourceMeanings.Keys { }

  lemma NetworkCodesHaveMeanings() ensures NetworkSeverity.Keys <= NetworkMeanings.Keys { }

  /** Every code some category lists has a meaning of its own, never the unknown-code
      default. */
  lemma CategorizedCodesHaveMeanings(code: string, i: nat)
    requires i < |FaultCategories| && code in FaultCategories[i].severityMapping
    ensures code in ErrorCodeMeanings
    ensures ErrorCodeMeaning(code) == ErrorCodeMeanings[code]
  {
    CategoryCodesInGroup(code, i);
    GroupMeaningsMerged();
  }

  /** A code a category lists is among the meanings of that category's group. */
  lemma CategoryCodesInGroup(code: string, i: nat)
    requires i < |FaultCategories| && code in FaultCategories[i].severityMapping
    ensures code in AuthenticationMeanings || code in PaymentMeanings || code in DatabaseMeanings
      || code in InventoryMeanings || code in SystemResourceMeanings || code in NetworkMeanings
  {
    if i == 0 { AuthenticationCodesHaveMeanings(); }
    else if i == 1 { PaymentCodesHaveMeanings(); }
    else if i == 2 { DatabaseCodesHaveMeanings(); }
    else if i == 3 { InventoryCodesHaveMeanings(); }
    else if i == 4 { SystemResourceCodesHaveMeanings(); }
    else { NetworkCodesHaveMeanings(); }
  }

  /** The "认证失败" pattern has expert insights but no industry standards, so the lookup of
      the latter answers with an empty list. */
  lemma AuthFailureHasNoStandards()
    ensures ExpertInsights("认证失败") != []
    ensures IndustryStandards("认证失败") == []
  {
  }
}
