/**
 * The two authored step catalogues (constants.ts) and the structural facts
 * about them that the playback controller relies on: both are non-empty,
 * ids are positions, and consecutive steps form one continuous path.
 */
module Catalogue {
  import opened Types

  /** LOGIN_STEPS (constants.ts:3-129): a user logs in and receives a token. */
  const LoginSteps: seq<Step> := [
      Step(id := 0,
        title := "用户提交表单 (Vue 3)",
        description := "用户输入用户名和密码，点击登录。Vue 组件通过 Axios 发起 POST 请求。",
        source := Client, target := Server,
        codeLang := JavaScript,
        codeContent := "// Login.vue\nconst handleLogin = async () => {\n  const res = await axios.post('/api/login', {\n    username: 'admin',\n    password: 'password123'\n  });\n  localStorage.setItem('token', res.data.token);\n};",
        payloadType := Request,
        payloadContent := "{\n  \"username\": \"admin\",\n  \"password\": \"***\"\n}",
        activeComponent := "axios"),
      Step(id := 1,
        title := "后端接收请求 (Controller)",
        description := "Spring Boot Controller 接收请求体，调用 Service 层处理业务逻辑。",
        source := Server, target := Server,
        codeLang := Java,
        codeContent := "// AuthController.java\n@PostMapping(\"/login\")\npublic Result login(@RequestBody LoginDto dto) {\n    // 调用服务层\n    User user = userService.login(dto);\n    // ...\n}",
        payloadType := Internal,
        payloadContent := "LoginDto(username=admin, ...)",
        activeComponent := "controller"),
      Step(id := 2,
        title := "MyBatis-Plus 查询数据库",
        description := "Service 层调用 Mapper 接口。MyBatis-Plus 自动生成 SQL 查询语句。",
        source := Server, target := Database,
        codeLang := Java,
        codeContent := "// UserService.java\nLambdaQueryWrapper<User> wrapper = new LambdaQueryWrapper<>();\nwrapper.eq(User::getUsername, dto.getUsername());\nUser user = userMapper.selectOne(wrapper);",
        payloadType := Query,
        payloadContent := "SELECT id, username, password, role FROM sys_user WHERE username = 'admin'",
        activeComponent := "mapper"),
      Step(id := 3,
        title := "数据库返回结果",
        description := "MySQL 执行查询，找到匹配的用户记录并返回。",
        source := Database, target := Server,
        codeLang := Sql,
        codeContent := "-- MySQL Output\n1 row returned\nExecution time: 2ms",
        payloadType := Response,
        payloadContent := "{\n  \"id\": 101,\n  \"username\": \"admin\",\n  \"role\": \"admin\",\n  \"password_hash\": \"$2a$10$...\"\n}",
        activeComponent := "database"),
      Step(id := 4,
        title := "生成 JWT 令牌",
        description := "验证密码通过后，Spring Boot 使用工具类生成 JWT Token (包含用户信息和过期时间)。",
        source := Server, target := Server,
        codeLang := Java,
        codeContent := "// JwtUtils.java\nString token = Jwts.builder()\n    .setSubject(user.getUsername())\n    .claim(\"role\", user.getRole())\n    .setExpiration(new Date(System.currentTimeMillis() + 3600000))\n    .signWith(SignatureAlgorithm.HS256, secret)\n    .compact();",
        payloadType := Internal,
        payloadContent := "Token Generated: eyJhbGciOiJIUzI1NiIsInR...",
        activeComponent := "jwt"),
      Step(id := 5,
        title := "返回响应给前端",
        description := "后端将 Token 封装在标准统一响应对象中返回给前端。",
        source := Server, target := Client,
        codeLang := Json,
        codeContent := "// HTTP Response 200 OK\n{\n  \"code\": 200,\n  \"msg\": \"success\",\n  \"data\": {\n    \"token\": \"eyJhbGciOiJIUzI1Ni...\"\n  }\n}",
        payloadType := Response,
        payloadContent := "{ code: 200, token: '...' }",
        activeComponent := "response"),
      Step(id := 6,
        title := "前端存储 Token",
        description := "Vue 获取到 Token，将其存入 LocalStorage 或 Pinia 中，用于后续请求。",
        source := Client, target := Client,
        codeLang := JavaScript,
        codeContent := "// Axios Response Interceptor or Component\nlocalStorage.setItem('access_token', token);\nrouter.push('/dashboard');",
        payloadType := Internal,
        payloadContent := "LocalStorage Updated",
        activeComponent := "storage")
    ]

  /** FETCH_STEPS (constants.ts:131-238): an authenticated request for a user list. */
  const FetchSteps: seq<Step> := [
      Step(id := 0,
        title := "发起数据请求 (Axios Interceptor)",
        description := "前端请求用户列表。Axios 请求拦截器自动将 Token 添加到请求头。",
        source := Client, target := Server,
        codeLang := JavaScript,
        codeContent := "// request.js (Axios Interceptor)\nservice.interceptors.request.use(config => {\n  const token = localStorage.getItem('token');\n  if (token) {\n    config.headers['Authorization'] = 'Bearer ' + token;\n  }\n  return config;\n})",
        payloadType := Request,
        payloadContent := "GET /api/users/list\nHeaders: {\n  Authorization: \"Bearer eyJhb...\"\n}",
        activeComponent := "axios"),
      Step(id := 1,
        title := "Token 校验 (Interceptor/Filter)",
        description := "Spring Boot 拦截器/过滤器捕获请求，解析 Token 验证合法性。",
        source := Server, target := Server,
        codeLang := Java,
        codeContent := "// AuthInterceptor.java\nString token = request.getHeader(\"Authorization\");\nif (JwtUtils.validate(token)) {\n    UserContext.set(JwtUtils.getUser(token)); // 存入上下文\n    return true; \n} else {\n    throw new UnauthorizedException();\n}",
        payloadType := Internal,
        payloadContent := "Token Valid: true\nUser: admin",
        activeComponent := "filter"),
      Step(id := 2,
        title := "Controller & MyBatis-Plus 分页查询",
        description := "Controller 接收请求，调用 Service 使用 MyBatis-Plus 进行分页查询。",
        source := Server, target := Database,
        codeLang := Java,
        codeContent := "// UserController.java\nPage<User> page = new Page<>(1, 10);\nIPage<User> userPage = userMapper.selectPage(page, null);\nreturn Result.success(userPage);",
        payloadType := Query,
        payloadContent := "SELECT id, username, email FROM sys_user LIMIT 0, 10",
        activeComponent := "mapper"),
      Step(id := 3,
        title := "数据库返回数据",
        description := "MySQL 返回符合条件的数据集。",
        source := Database, target := Server,
        codeLang := Sql,
        codeContent := "-- MySQL Result\n10 rows returned",
        payloadType := Response,
        payloadContent := "[{id:1, name:'User1'}, {id:2, name:'User2'}...]",
        activeComponent := "database"),
      Step(id := 4,
        title := "后端返回 JSON",
        description := "Spring Boot 将 Java 对象序列化为 JSON 格式返回给前端。",
        source := Server, target := Client,
        codeLang := Json,
        codeContent := "{\n  \"code\": 200,\n  \"data\": {\n    \"records\": [...],\n    \"total\": 50,\n    \"current\": 1,\n    \"size\": 10\n  }\n}",
        payloadType := Response,
        payloadContent := "JSON Payload",
        activeComponent := "response"),
      Step(id := 5,
        title := "前端渲染数据",
        description := "Vue 组件接收数据并更新响应式变量，DOM 自动刷新显示列表。",
        source := Client, target := Client,
        codeLang := JavaScript,
        codeContent := "// UserList.vue\nconst userList = ref([]);\nconst fetchUsers = async () => {\n  const res = await api.getUsers();\n  userList.value = res.data.records;\n}",
        payloadType := Internal,
        payloadContent := "DOM Updated",
        activeComponent := "render")
    ]

  /** Every step's id is its zero-based position in the catalogue. */
  predicate DenseIds(steps: seq<Step>) {
    forall i :: 0 <= i < |steps| ==> steps[i].id == i
  }

  /** Each step starts at the entity where the step before it ended. */
  predicate Chained(steps: seq<Step>) {
    |steps| <= 1 || (steps[0].target == steps[1].source && Chained(steps[1..]))
  }

  /**
   * The payload kind agrees with the direction of travel: internal work stays
   * inside one entity, queries go from the server to the database, requests
   * go from the client to the server.
   */
  predicate PayloadFitsDirection(step: Step) {
    && (step.payloadType == Internal ==> step.source == step.target)
    && (step.payloadType == Query ==> step.source == Server && step.target == Database)
    && (step.payloadType == Request ==> step.source == Client && step.target == Server)
  }

  /**
   * The step hops between neighbouring tiers or stays inside one: the
   * client never talks to the database directly (the diagram has no
   * connector between them).
   */
  predicate NeighbouringTiers(step: Step) {
    !(step.source == Client && step.target == Database) &&
    !(step.source == Database && step.target == Client)
  }

  /** A flow opens with the client calling the server and closes inside the client. */
  predicate OpensAndClosesAtClient(steps: seq<Step>) {
    && |steps| > 0
    && steps[0].source == Client && steps[0].target == Server
    && steps[|steps| - 1].source == Client && steps[|steps| - 1].target == Client
  }

  /**
   * The structural facts of an authored catalogue. Only non-emptiness and
   * dense ids matter for indexing; the chain, payload, tier and
   * opening/closing conditions describe the content of the flow.
   */
  predicate WellFormed(steps: seq<Step>) {
    && OpensAndClosesAtClient(steps)
    && DenseIds(steps)
    && Chained(steps)
    && forall i :: 0 <= i < |steps| ==> PayloadFitsDirection(steps[i]) && NeighbouringTiers(steps[i])
  }

  /** The recursive chain condition, read off at any position. */
  lemma {:induction false} ChainedLink(steps: seq<Step>, i: nat)
    requires Chained(steps)
    requires i + 1 < |steps|
    ensures steps[i].target == steps[i + 1].source
  {
    if i > 0 {
      ChainedLink(steps[1..], i - 1);
    }
  }

  /** The chain condition, established from its links at every position. */
  lemma {:induction false} ChainedFromLinks(steps: seq<Step>)
    requires forall i :: 0 <= i < |steps| - 1 ==> steps[i].target == steps[i + 1].source
    ensures Chained(steps)
  {
    if |steps| > 1 {
      var rest := steps[1..];
      forall i | 0 <= i < |rest| - 1
        ensures rest[i].target == rest[i + 1].source
      {
        assert rest[i] == steps[i + 1] && rest[i + 1] == steps[i + 2];
      }
      ChainedFromLinks(rest);
    }
  }

  /** LOGIN_STEPS has seven steps and is well formed. */
  lemma LoginStepsWellFormed()
    ensures |LoginSteps| == 7
    ensures WellFormed(LoginSteps)
  {
    ChainedFromLinks(LoginSteps);
  }

  /** FETCH_STEPS has six steps and is well formed. */
  lemma FetchStepsWellFormed()
    ensures |FetchSteps| == 6
    ensures WellFormed(FetchSteps)
  {
    ChainedFromLinks(FetchSteps);
  }

  /** Two individual steps, checked field by field. */
  lemma CatalogueSpotChecks()
    ensures LoginSteps[2].source == Server && LoginSteps[2].target == Database
    ensures LoginSteps[2].payloadType == Query && LoginSteps[2].activeComponent == "mapper"
    ensures FetchSteps[0].source == Client && FetchSteps[0].target == Server
    ensures FetchSteps[0].payloadType == Request && FetchSteps[0].activeComponent == "axios"
  {
  }
}
