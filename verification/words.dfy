/** The fixed texts of the configuration templates. */
module Words {

  /** No braces and no line breaks. */
  predicate Fixed(s: string) {
    forall i :: 0 <= i < |s| ==> s[i] != '{' && s[i] != '}' && s[i] != '\n'
  }

  /** One word of a directive: nor blanks or semicolons either. */
  predicate Solid(s: string) {
    forall i :: 0 <= i < |s| ==> s[i] != '{' && s[i] != '}' && s[i] != '\n' && s[i] != ' ' && s[i] != ';'
  }

  type Phrase = s: string | Fixed(s) witness ""

  type Word = s: string | Solid(s) witness ""

  /** It can name a directive, or begin the head of a block. */
  predicate Begins(s: string) {
    s != "" && s[0] != ' ' && s[0] != '#'
  }

  type Name = s: string | Begins(s) && Solid(s) witness "x"

  const ACCESS_CONTROL_ALLOW_CREDENTIALS: Word := "Access-Control-Allow-Credentials"
  const ACCESS_CONTROL_ALLOW_HEADERS: Word := "Access-Control-Allow-Headers"
  const ACCESS_CONTROL_ALLOW_METHODS: Word := "Access-Control-Allow-Methods"
  const ACCESS_CONTROL_ALLOW_ORIGIN: Word := "Access-Control-Allow-Origin"
  const ACCESS_CONTROL_EXPOSE_HEADERS: Word := "Access-Control-Expose-Headers"
  const ACCESS_CONTROL_MAX_AGE: Word := "Access-Control-Max-Age"
  const ACCESS_CONTROL_TITLE: Phrase := "Access Control"
  const ACCESS_LOG: Name := "access_log"
  const ACCESS_LOG_FILE: Word := "/var/log/nginx/access.log"
  const ADD_HEADER: Name := "add_header"
  const ALL: Word := "all"
  const ALLOW: Name := "allow"
  const ALWAYS: Word := "always"
  const ANY: Word := "any"
  const APOSTROPHE: Word := "'"
  const AUTOINDEX: Name := "autoindex"
  const BACKUP: Word := "backup"
  const BUFFERS_TITLE: Word := "Buffers"
  const BURST_IS: Word := "burst="
  const CLIENT_BODY_BUFFER_SIZE: Name := "client_body_buffer_size"
  const CLIENT_BODY_TIMEOUT: Name := "client_body_timeout"
  const CLIENT_HEADER_BUFFER_SIZE: Name := "client_header_buffer_size"
  const CLIENT_HEADER_TIMEOUT: Name := "client_header_timeout"
  const CLIENT_MAX_BODY_SIZE: Name := "client_max_body_size"
  const CODE_200: Word := "200"
  const CODE_301: Word := "301"
  const CODE_429: Word := "429"
  const COLON: Word := ":"
  const COMMA: Phrase := ", "
  const COMPRESSION_TITLE: Word := "Compression"
  const CONF_D: Word := "/etc/nginx/conf.d/*.conf"
  const CONNECTION_HEADER: Word := "Connection"
  const CONTENT_TYPE: Word := "Content-Type"
  const CORS_ORIGIN_VAR: Word := "$cors_origin"
  const CORS_TITLE: Word := "CORS"
  const CUSTOM_HEADERS_TITLE: Phrase := "Custom Headers"
  const CUSTOM_HTTP_SNIPPET_TITLE: Phrase := "Custom HTTP Snippet"
  const CUSTOM_MAIN_SNIPPET_TITLE: Phrase := "Custom Main Snippet"
  const CUSTOM_SERVER_SNIPPET_TITLE: Phrase := "Custom Server Snippet"
  const CUSTOM_UPSTREAM_SNIPPET_TITLE: Phrase := "Custom Upstream Snippet"
  const DEFAULT_FORMAT_1: Phrase := "log_format main '$remote_addr"
  const DEFAULT_FORMAT_1_END: Phrase := " - $remote_user [$time_local] '"
  const DEFAULT_FORMAT_2: Phrase := "'\"$request\" $status $body_bytes_sent '"
  const DEFAULT_FORMAT_3: Phrase := "'\"$http_referer\" \"$http_user_agent\" '"
  const DEFAULT_FORMAT_4: Name := "'$request_time"
  const DEFAULT_FORMAT_4_END: Word := "$upstream_response_time'"
  const DEFAULT_TYPE: Name := "default_type"
  const DENY: Name := "deny"
  const DOWN: Word := "down"
  const EIGHT_K: Word := "8k"
  const EPOLL: Word := "epoll"
  const EQUALS: Word := "="
  const ERROR_LOG: Name := "error_log"
  const ERROR_LOG_FILE: Word := "/var/log/nginx/error.log"
  const EVENTS: Name := "events"
  const FAIL_TIMEOUT_IS: Word := "fail_timeout="
  const FORWARDED_FOR_VAR: Word := "$proxy_add_x_forwarded_for"
  const FOUR: Word := "4"
  const GENERATED_COMMENT: Phrase := "# NGINX Configuration"
  const GENERATED_COMMENT_END: Phrase := " - Generated by nginx-operator"
  const GZIP: Name := "gzip"
  const GZIP_COMP_LEVEL: Name := "gzip_comp_level"
  const GZIP_MIN_LENGTH: Name := "gzip_min_length"
  const GZIP_PROXIED: Name := "gzip_proxied"
  const GZIP_TYPES: Name := "gzip_types"
  const GZIP_VARY: Name := "gzip_vary"
  const HASH_SPACE: Phrase := "# "
  const HOST_HEADER: Word := "Host"
  const HOST_VAR: Word := "$host"
  const HTTP: Name := "http"
  const HTTPS_TARGET: Word := "https://$host$request_uri"
  const HTTP_1_1: Word := "1.1"
  const HTTP_SCHEME: Word := "http://"
  const HTTP_UPGRADE_VAR: Word := "$http_upgrade"
  const IF_HTTP: Phrase := "if ($scheme = http)"
  const INCLUDE: Name := "include"
  const INDEX: Name := "index"
  const IP_HASH: Name := "ip_hash"
  const KEEPALIVE: Name := "keepalive"
  const KEEPALIVE_REQUESTS: Name := "keepalive_requests"
  const KEEPALIVE_TIMEOUT: Name := "keepalive_timeout"
  const LARGE_CLIENT_HEADER_BUFFERS: Name := "large_client_header_buffers"
  const LEAST_CONN: Name := "least_conn"
  const LIMIT_REQ: Name := "limit_req"
  const LIMIT_REQ_STATUS: Name := "limit_req_status"
  const LIMIT_REQ_ZONE: Name := "limit_req_zone"
  const LISTEN: Name := "listen"
  const LOCATION: Phrase := "location "
  const LOCATION_HEALTH: Phrase := "location /healthz"
  const LOCATION_STATUS: Phrase := "location /stub_status"
  const LOGGING_TITLE: Word := "Logging"
  const LOG_FORMAT: Name := "log_format"
  const LOOPBACK: Word := "127.0.0.1"
  const LOOPBACK_COLON: Word := "127.0.0.1:"
  const MAIN: Word := "main"
  const MANAGED_COMMENT: Phrase := "# DO NOT EDIT - This file is"
  const MANAGED_COMMENT_END: Phrase := " managed by the NGINX Operator"
  const MAX_CONNS_IS: Word := "max_conns="
  const MAX_FAILS_IS: Word := "max_fails="
  const MIME_TYPES: Word := "/etc/nginx/mime.types"
  const MONITORING_TITLE: Word := "Monitoring"
  const MULTI_ACCEPT: Name := "multi_accept"
  const NODELAY: Word := "nodelay"
  const NOSNIFF: Word := "nosniff"
  const OCTET_STREAM: Word := "application/octet-stream"
  const OFF: Word := "off"
  const ON: Word := "on"
  const ONE_K: Word := "1k"
  const PERFORMANCE_TITLE: Word := "Performance"
  const PID: Name := "pid"
  const PID_FILE: Word := "/var/run/nginx.pid"
  const PROXY_BUFFERS: Name := "proxy_buffers"
  const PROXY_BUFFER_SIZE: Name := "proxy_buffer_size"
  const PROXY_CONNECT_TIMEOUT: Name := "proxy_connect_timeout"
  const PROXY_HIDE_HEADER: Name := "proxy_hide_header"
  const PROXY_HTTP_VERSION: Name := "proxy_http_version"
  const PROXY_NEXT_UPSTREAM: Name := "proxy_next_upstream"
  const PROXY_NEXT_UPSTREAM_TRIES: Name := "proxy_next_upstream_tries"
  const PROXY_PASS: Name := "proxy_pass"
  const PROXY_PROTOCOL: Word := "proxy_protocol"
  const PROXY_READ_TIMEOUT: Name := "proxy_read_timeout"
  const PROXY_SEND_TIMEOUT: Name := "proxy_send_timeout"
  const PROXY_SET_HEADER: Name := "proxy_set_header"
  const QUOTED_OK: Word := "'ok'"
  const RANDOM: Name := "random"
  const RATE_IS: Word := "rate="
  const RATE_LIMITING_TITLE: Phrase := "Rate Limiting"
  const REDIRECT_TITLE: Phrase := "HTTP to HTTPS Redirect"
  const REFERRER_POLICY: Word := "Referrer-Policy"
  const REMOTE_ADDR_VAR: Word := "$remote_addr"
  const RETURN: Name := "return"
  const ROOT: Name := "root"
  const ROUTE_COMMENT: Phrase := "# Route: "
  const SAMEORIGIN: Word := "SAMEORIGIN"
  const SCHEME_VAR: Word := "$scheme"
  const SECURITY_TITLE: Word := "Security"
  const SENDFILE: Name := "sendfile"
  const SEND_TIMEOUT: Name := "send_timeout"
  const SERVER: Name := "server"
  const SERVER_NAME: Name := "server_name"
  const SERVER_TOKENS: Name := "server_tokens"
  const SET: Name := "set"
  const SIX: Word := "6"
  const SIXTEEN_K: Word := "16k"
  const SIXTY_SECONDS: Word := "60s"
  const SPACE: Phrase := " "
  const SSL: Word := "ssl"
  const SSL_CERTIFICATE: Name := "ssl_certificate"
  const SSL_CERTIFICATE_KEY: Name := "ssl_certificate_key"
  const SSL_CIPHERS: Name := "ssl_ciphers"
  const SSL_DIR: Word := "/etc/nginx/ssl/"
  const SSL_PREFER_SERVER_CIPHERS: Name := "ssl_prefer_server_ciphers"
  const SSL_PROTOCOLS: Name := "ssl_protocols"
  const SSL_SESSION_CACHE: Name := "ssl_session_cache"
  const SSL_SESSION_TICKETS: Name := "ssl_session_tickets"
  const SSL_SESSION_TIMEOUT: Name := "ssl_session_timeout"
  const STRICT_ORIGIN: Word := "strict-origin-when-cross-origin"
  const STUB_STATUS: Name := "stub_status"
  const TCP_NODELAY: Name := "tcp_nodelay"
  const TCP_NOPUSH: Name := "tcp_nopush"
  const TEN_SECONDS: Word := "10s"
  const TEXT_PLAIN: Word := "text/plain"
  const TIMEOUTS_TITLE: Word := "Timeouts"
  const TLS_CRT: Word := "/tls.crt"
  const TLS_DEFAULTS_TITLE: Phrase := "TLS Defaults"
  const TLS_KEY: Word := "/tls.key"
  const TLS_TITLE: Word := "TLS"
  const TRUE: Word := "true"
  const TRY_FILES: Name := "try_files"
  const TWO: Word := "two"
  const UNDERSCORE: Word := "_"
  const UPGRADE_HEADER: Word := "Upgrade"
  const UPGRADE_VALUE: Word := "upgrade"
  const UPSTREAM: Phrase := "upstream "
  const UPSTREAM_COMMENT: Phrase := "# Upstream: "
  const USE: Name := "use"
  const VIRTUAL_HOST_CONFIGS_TITLE: Phrase := "Virtual Host Configs"
  const WEIGHT_IS: Word := "weight="
  const WORKER_CONNECTIONS: Name := "worker_connections"
  const WORKER_PROCESSES: Name := "worker_processes"
  const XSS_BLOCK: Phrase := "1; mode=block"
  const X_CONTENT_TYPE_OPTIONS: Word := "X-Content-Type-Options"
  const X_FORWARDED_FOR: Word := "X-Forwarded-For"
  const X_FORWARDED_PROTO: Word := "X-Forwarded-Proto"
  const X_FRAME_OPTIONS: Word := "X-Frame-Options"
  const X_REAL_IP: Word := "X-Real-IP"
  const X_XSS_PROTECTION: Word := "X-XSS-Protection"
  const ZONE_IS: Word := "zone="

  // what stands where the user says nothing
  const AUTO: Word := "auto"
  const WARN: Word := "warn"
  const SIXTY_FIVE_SECONDS: Word := "65s"
  const ONE_M: Word := "1m"
  const GZIP_TEXT: Phrase := "text/plain text/css "
  const GZIP_APPLICATION: Phrase := "application/json application/javascript "
  const GZIP_XML: Phrase := "text/xml application/xml image/svg+xml"
  const ROUND_ROBIN: Word := "round_robin"

  // what the assembled text is made of
  const UPSTREAM_SECTION: Phrase := "# --- Upstream Blocks ---"
  const SERVER_SECTION: Phrase := "# --- Server Blocks ---"
}
